/**
 No look-ahead: what a run has done by day `d` depends on the rows up to `d` and, of the future, exactly on the next
 sessions that one of its steps has asked for.
 */
module NoLookahead {
  import opened Numbers
  import opened MarketData
  import opened Signals
  import opened Engine
  import opened Invariants
  import opened ExecutionProofs
  import opened SignalProofs
  import opened Rules
  import opened Calendars
  import opened RunProofs
  import opened Agreement

  // ---- The steps that ask for a stock's next session ----

  /** A retry with attempts left. */
  predicate OrderAsks(env: Env, d: int, o: Order) {
    o.targetDate <= d && !Tradable(env.Series(o.stockId), d) && 1 < o.attemptsLeft
  }

  /** An exit trigger of a position without an exit order. */
  predicate PositionAsks(env: Env, d: int, selling: set<int>, p: Position) {
    var s := env.Series(p.stockId);
    && p.stockId !in selling && HasSession(s, d)
    && Triggers(env.cfg, s, EntryIndex(s, p, Index(s, d)), p.entryExec, Index(s, d))
  }

  ghost function OrdersAsk(env: Env, d: int, orders: seq<Order>): set<int> {
    set o | o in orders && OrderAsks(env, d, o) :: o.stockId
  }

  ghost function PositionsAsk(env: Env, d: int, selling: set<int>, ps: seq<Position>): set<int> {
    set p | p in ps && PositionAsks(env, d, selling, p) :: p.stockId
  }

  /** An entry signal that finds its stock free and a slot open. */
  ghost function SignalsAsk(env: Env, d: int, st: State, busy: set<int>, stocks: seq<Stock>): set<int> {
    set s | s in FreeSignals(env, d, st, busy, stocks) :: s.id
  }

  /** The stocks whose next session the steps of day `d` ask for, starting from `st`. */
  ghost function DayAsks(env: Env, d: int, st: State): set<int> {
    var executed := ExecuteOrders(env, d, st);
    var scanned := DetectExits(env, d, executed);
    OrdersAsk(env, d, st.pending)
    + PositionsAsk(env, d, IdsOn(Sell, executed.pending), executed.positions)
    + SignalsAsk(env, d, scanned, PositionIds(scanned.positions) + IdsOn(Buy, scanned.pending), env.universe)
  }

  ghost predicate AllAgree(env: Env, env': Env, c: int, ids: set<int>) {
    forall id :: id in ids ==> NextAgrees(env, env', c, id)
  }

  // ---- Runs that have come apart ----

  /** An order for a session after `d` that is not the next one of its stock as `env` has it. */
  ghost predicate Foreign(env: Env, d: int, o: Order) {
    d < o.targetDate && NextDate(env, env.Series(o.stockId), d) != Some(o.targetDate)
  }

  ghost predicate Native(env: Env, d: int, orders: seq<Order>) {
    forall o :: o in orders ==> !Foreign(env, d, o)
  }

  /** One of the queues holds an order that the other run can never have placed. */
  ghost predicate Apart(env: Env, env': Env, d: int, x: seq<Order>, y: seq<Order>) {
    || (exists o :: o in x && Foreign(env', d, o))
    || (exists o :: o in y && Foreign(env, d, o))
  }

  lemma {:induction false} ApartDiffer(env: Env, env': Env, d: int, x: seq<Order>, y: seq<Order>)
    requires Apart(env, env', d, x, y) && Native(env, d, x) && Native(env', d, y)
    ensures x != y
  {
  }

  /** Orders for sessions after `d` are never lost on the way. */
  ghost predicate KeepsLate(d: int, before: seq<Order>, after: seq<Order>) {
    forall o :: o in before && d < o.targetDate ==> o in after
  }

  lemma {:induction false} ApartStays(env: Env, env': Env, d: int, x: seq<Order>, y: seq<Order>,
                                      x': seq<Order>, y': seq<Order>)
    requires Apart(env, env', d, x, y) && KeepsLate(d, x, x') && KeepsLate(d, y, y')
    ensures Apart(env, env', d, x', y')
  {
    hide NextDate;
    if o :| o in x && Foreign(env', d, o) {
      assert o in x';
    } else {
      var o :| o in y && Foreign(env, d, o);
      assert o in y';
    }
  }

  /** Equal as long as all answers agreed, and apart for good once one did not. */
  ghost predicate Tracks(env: Env, env': Env, d: int, agree: bool, a: State, b: State) {
    && (agree ==> a == b)
    && (!agree ==> Apart(env, env', d, a.pending, b.pending))
  }

  /** If there is a next session, some order of stock `id` waits for it. */
  ghost predicate Awaited(x: seq<Order>, id: int, next: Option<int>) {
    next.Some? ==> exists o :: o in x && o.stockId == id && o.targetDate == next.value
  }

  lemma {:induction false} AwaitedElsewhere(env: Env, d: int, id: int, next: Option<int>, x: seq<Order>)
    requires next.Some? && d < next.value && NextDate(env, env.Series(id), d) != next && Awaited(x, id, next)
    ensures exists o :: o in x && Foreign(env, d, o)
  {
    hide NextDate;
    var o :| o in x && o.stockId == id && o.targetDate == next.value;
    assert Foreign(env, d, o);
  }

  /** Orders that follow different answers set the runs apart. */
  lemma {:induction false} ComeApart(env: Env, env': Env, c: int, d: int, id: int, x: seq<Order>, y: seq<Order>)
    requires c <= d && SameRows(env, env', d) && !NextAgrees(env, env', c, id)
    requires Awaited(x, id, NextDate(env, env.Series(id), c))
    requires Awaited(y, id, NextDate(env', env'.Series(id), c))
    ensures Apart(env, env', d, x, y)
  {
    hide SameRows, NextDate, Awaited, Foreign;
    NextBeyond(env, env', c, d, id);
    var next, next' := NextDate(env, env.Series(id), c), NextDate(env', env'.Series(id), c);
    if next.Some? {
      AwaitedElsewhere(env', d, id, next, x);
    } else {
      AwaitedElsewhere(env, d, id, next', y);
    }
  }

  // ---- Phase 1 ----

  lemma {:induction false} OrderAlike(env: Env, env': Env, c: int, st: State, o: Order)
    requires SameRows(env, env', c) && (OrderAsks(env, c, o) ==> NextAgrees(env, env', c, o.stockId))
    ensures ExecuteOne(env, c, st, o) == ExecuteOne(env', c, st, o)
  {
    hide SameHistory, SameHistories, Open, Close, NextDate;
    SameView(env, env', c, o.stockId);
  }

  lemma {:induction false} OrderApart(env: Env, env': Env, c: int, d: int, st: State, o: Order)
    requires c <= d && SameRows(env, env', d)
    requires OrderAsks(env, c, o) && !NextAgrees(env, env', c, o.stockId)
    ensures Apart(env, env', d, ExecuteOne(env, c, st, o).pending, ExecuteOne(env', c, st, o).pending)
  {
    RowsEarlier(env, env', c, d);
    SameView(env, env', c, o.stockId);
    Moved(env, c, st, o);
    Moved(env', c, st, o);
    hide SameRows, SameHistory, ExecuteOne, Apart, NextDate, Awaited;
    ComeApart(env, env', c, d, o.stockId, ExecuteOne(env, c, st, o).pending, ExecuteOne(env', c, st, o).pending);
  }

  /** A retry with attempts left moves to the next session. */
  lemma {:induction false} Moved(env: Env, d: int, st: State, o: Order)
    requires OrderAsks(env, d, o)
    ensures Awaited(ExecuteOne(env, d, st, o).pending, o.stockId, NextDate(env, env.Series(o.stockId), d))
  {
    hide Tradable, NextDate;
    var next := NextDate(env, env.Series(o.stockId), d);
    if next.Some? {
      var moved := o.(attemptsLeft := o.attemptsLeft - 1, targetDate := next.value);
      assert ExecuteOne(env, d, st, o).pending == st.pending + [moved];
      assert moved in ExecuteOne(env, d, st, o).pending;
    }
  }

  lemma {:induction false} ExecuteOneGrows(env: Env, d: int, st: State, o: Order)
    ensures st.pending <= ExecuteOne(env, d, st, o).pending
    ensures d < o.targetDate ==> o in ExecuteOne(env, d, st, o).pending
  {
    hide Tradable, NextDate, Sized, FillOf, Proceeds, TradeOf;
  }

  lemma {:induction false} ExecuteGrows(env: Env, d: int, st: State, orders: seq<Order>)
    ensures st.pending <= ExecuteAll(env, d, st, orders).pending
    ensures forall o :: o in orders && d < o.targetDate ==> o in ExecuteAll(env, d, st, orders).pending
    decreases |orders|
  {
    hide ExecuteOne;
    if orders != [] {
      ExecuteOneGrows(env, d, st, orders[0]);
      ExecuteGrows(env, d, ExecuteOne(env, d, st, orders[0]), orders[1..]);
    }
  }

  lemma {:induction false} PrefixKeeps(d: int, before: seq<Order>, after: seq<Order>)
    requires before <= after
    ensures KeepsLate(d, before, after)
  {
  }

  lemma {:induction false} OrdersTrack(env: Env, env': Env, c: int, d: int, st: State, orders: seq<Order>)
    requires c <= d && SameRows(env, env', d)
    ensures Tracks(env, env', d, AllAgree(env, env', c, OrdersAsk(env, c, orders)),
                   ExecuteAll(env, c, st, orders), ExecuteAll(env', c, st, orders))
    decreases |orders|
  {
    if orders != [] {
      RowsEarlier(env, env', c, d);
      hide SameRows, ExecuteOne, OrderAsks, NextAgrees, Apart;
      var o := orders[0];
      OrdersAskSplit(env, env', c, orders);
      var x, y := ExecuteOne(env, c, st, o), ExecuteOne(env', c, st, o);
      if OrderAsks(env, c, o) && !NextAgrees(env, env', c, o.stockId) {
        OrderApart(env, env', c, d, st, o);
        ExecuteGrows(env, c, x, orders[1..]);
        ExecuteGrows(env', c, y, orders[1..]);
        GrowApart(env, env', d, x.pending, y.pending, ExecuteAll(env, c, x, orders[1..]).pending,
                  ExecuteAll(env', c, y, orders[1..]).pending);
      } else {
        OrderAlike(env, env', c, st, o);
        OrdersTrack(env, env', c, d, x, orders[1..]);
      }
    }
  }

  lemma {:induction false} GrowApart(env: Env, env': Env, d: int, x: seq<Order>, y: seq<Order>,
                                     x': seq<Order>, y': seq<Order>)
    requires Apart(env, env', d, x, y) && x <= x' && y <= y'
    ensures Apart(env, env', d, x', y')
  {
    hide Apart;
    PrefixKeeps(d, x, x');
    PrefixKeeps(d, y, y');
    ApartStays(env, env', d, x, y, x', y');
  }

  lemma {:induction false} OrdersAskSplit(env: Env, env': Env, c: int, orders: seq<Order>)
    requires orders != []
    ensures AllAgree(env, env', c, OrdersAsk(env, c, orders))
            <==> (OrderAsks(env, c, orders[0]) ==> NextAgrees(env, env', c, orders[0].stockId))
                 && AllAgree(env, env', c, OrdersAsk(env, c, orders[1..]))
  {
    hide OrderAsks, NextAgrees;
    assert forall o :: o in orders <==> o == orders[0] || o in orders[1..];
    var whole, rest := OrdersAsk(env, c, orders), OrdersAsk(env, c, orders[1..]);
    assert whole == rest + (if OrderAsks(env, c, orders[0]) then {orders[0].stockId} else {});
  }

  // ---- Phase 2 ----

  lemma {:induction false} SameTrigger(env: Env, env': Env, d: int, p: Position, a: Stock, b: Stock)
    requires env.cfg == env'.cfg && SameHistory(d, a, b)
    requires p.entryDate <= d && HasSession(a, d)
    ensures HasSession(b, d) && EntryIndex(a, p, Index(a, d)) == EntryIndex(b, p, Index(b, d))
    ensures Triggers(env.cfg, a, EntryIndex(a, p, Index(a, d)), p.entryExec, Index(a, d))
            <==> Triggers(env'.cfg, b, EntryIndex(b, p, Index(b, d)), p.entryExec, Index(b, d))
  {
    SameToday(d, a, b);
    HistoryEarlier(p.entryDate, d, a, b);
    SameToday(p.entryDate, a, b);
    hide SameHistory, TargetHit, StopHit;
    assert a.rows[Index(a, d)] == RowAt(a, d) && b.rows[Index(b, d)] == RowAt(b, d);
  }

  /** Both runs look at the position alike, up to the next session. */
  lemma {:induction false} SamePosition(env: Env, env': Env, c: int, selling: set<int>, p: Position)
    requires SameRows(env, env', c) && p.entryDate <= c
    ensures PositionAsks(env, c, selling, p) <==> PositionAsks(env', c, selling, p)
  {
    hide SameHistories, SameHistory, Triggers, EntryIndex;
    SameView(env, env', c, p.stockId);
    if HasSession(env.Series(p.stockId), c) {
      SameTrigger(env, env', c, p, env.Series(p.stockId), env'.Series(p.stockId));
    }
  }

  lemma {:induction false} PositionAlike(env: Env, env': Env, c: int, selling: set<int>, st: State, p: Position)
    requires SameRows(env, env', c) && p.entryDate <= c
    requires PositionAsks(env, c, selling, p) ==> NextAgrees(env, env', c, p.stockId)
    ensures ExitOne(env, c, selling, st, p) == ExitOne(env', c, selling, st, p)
  {
    SamePosition(env, env', c, selling, p);
    SameView(env, env', c, p.stockId);
    hide SameHistories, SameHistory, Triggers, EntryIndex, Close, Refreshed, ExitReason, NextDate;
  }

  /** An exit trigger with a further session orders the exit for it. */
  lemma {:induction false} ExitOrdered(env: Env, d: int, selling: set<int>, st: State, p: Position)
    requires PositionAsks(env, d, selling, p)
    ensures Awaited(ExitOne(env, d, selling, st, p).pending, p.stockId, NextDate(env, env.Series(p.stockId), d))
  {
    hide Triggers, EntryIndex, NextDate, ExitReason, Refreshed;
    var s := env.Series(p.stockId);
    var next := NextDate(env, s, d);
    if next.Some? {
      var o := Order(p.stockId, Sell, d, next.value, EXIT_RETRY_SESSIONS,
                     ExitReason(env.cfg, RowAt(s, d), p.entryExec));
      assert ExitOne(env, d, selling, st, p).pending == st.pending + [o];
      assert o in ExitOne(env, d, selling, st, p).pending;
    }
  }

  lemma {:induction false} PositionApart(env: Env, env': Env, c: int, d: int, selling: set<int>, st: State,
                                         p: Position)
    requires c <= d && SameRows(env, env', d) && p.entryDate <= c
    requires PositionAsks(env, c, selling, p) && !NextAgrees(env, env', c, p.stockId)
    ensures Apart(env, env', d, ExitOne(env, c, selling, st, p).pending, ExitOne(env', c, selling, st, p).pending)
  {
    RowsEarlier(env, env', c, d);
    SamePosition(env, env', c, selling, p);
    ExitOrdered(env, c, selling, st, p);
    ExitOrdered(env', c, selling, st, p);
    hide SameRows, PositionAsks, ExitOne, Apart, NextDate, Awaited;
    ComeApart(env, env', c, d, p.stockId, ExitOne(env, c, selling, st, p).pending,
              ExitOne(env', c, selling, st, p).pending);
  }

  lemma {:induction false} ExitsGrow(env: Env, d: int, selling: set<int>, st: State, ps: seq<Position>)
    ensures st.pending <= ExitAll(env, d, selling, st, ps).pending
    decreases |ps|
  {
    hide Triggers, EntryIndex, NextDate, ExitReason, Refreshed, Proceeds, TradeOf;
    if ps != [] {
      ExitsGrow(env, d, selling, ExitOne(env, d, selling, st, ps[0]), ps[1..]);
    }
  }

  lemma {:induction false} PositionsAskSplit(env: Env, env': Env, c: int, selling: set<int>, ps: seq<Position>)
    requires ps != []
    ensures AllAgree(env, env', c, PositionsAsk(env, c, selling, ps))
            <==> (PositionAsks(env, c, selling, ps[0]) ==> NextAgrees(env, env', c, ps[0].stockId))
                 && AllAgree(env, env', c, PositionsAsk(env, c, selling, ps[1..]))
  {
    hide PositionAsks, NextAgrees;
    assert forall p :: p in ps <==> p == ps[0] || p in ps[1..];
    var whole, rest := PositionsAsk(env, c, selling, ps), PositionsAsk(env, c, selling, ps[1..]);
    assert whole == rest + (if PositionAsks(env, c, selling, ps[0]) then {ps[0].stockId} else {});
  }

  lemma {:induction false} PositionsTrack(env: Env, env': Env, c: int, d: int, selling: set<int>, st: State,
                                          ps: seq<Position>)
    requires c <= d && SameRows(env, env', d) && forall p :: p in ps ==> p.entryDate <= c
    ensures Tracks(env, env', d, AllAgree(env, env', c, PositionsAsk(env, c, selling, ps)),
                   ExitAll(env, c, selling, st, ps), ExitAll(env', c, selling, st, ps))
    decreases |ps|
  {
    if ps != [] {
      RowsEarlier(env, env', c, d);
      hide SameRows, ExitOne, PositionAsks, NextAgrees, Apart;
      var p := ps[0];
      PositionsAskSplit(env, env', c, selling, ps);
      var x, y := ExitOne(env, c, selling, st, p), ExitOne(env', c, selling, st, p);
      if PositionAsks(env, c, selling, p) && !NextAgrees(env, env', c, p.stockId) {
        PositionApart(env, env', c, d, selling, st, p);
        ExitsGrow(env, c, selling, x, ps[1..]);
        ExitsGrow(env', c, selling, y, ps[1..]);
        GrowApart(env, env', d, x.pending, y.pending, ExitAll(env, c, selling, x, ps[1..]).pending,
                  ExitAll(env', c, selling, y, ps[1..]).pending);
      } else {
        PositionAlike(env, env', c, selling, st, p);
        PositionsTrack(env, env', c, d, selling, x, ps[1..]);
      }
    }
  }

  // ---- Phase 3 ----

  lemma {:induction false} SameTally(d: int, u: seq<Stock>, u': seq<Stock>)
    requires SameHistories(d, u, u')
    ensures BreadthTally(u, d) == BreadthTally(u', d)
  {
    hide SameHistory;
    if u != [] {
      var n := |u| - 1;
      SameTally(d, u[..n], u'[..n]);
      SameToday(d, u[n], u'[n]);
    }
  }

  lemma {:induction false} SameBreadth(env: Env, env': Env, d: int)
    requires SameRows(env, env', d)
    ensures env.cfg == env'.cfg && Breadth(env, d) == Breadth(env', d)
  {
    hide SameHistories, BreadthTally;
    SameTally(d, env.universe, env'.universe);
  }

  lemma {:induction false} SameFires(env: Env, env': Env, d: int, a: Stock, b: Stock)
    requires SameRows(env, env', d) && SameHistory(d, a, b)
    ensures FiresOn(env, a, d) <==> FiresOn(env', b, d)
    ensures EntryRuleOn(env, a, d) <==> FiresOn(env, a, d)
    ensures EntryRuleOn(env', b, d) <==> FiresOn(env', b, d)
  {
    FiresOnByRule(env, a, d);
    FiresOnByRule(env', b, d);
    SameBreadth(env, env', d);
    SameToday(d, a, b);
    if HasSession(a, d) && 0 < Index(a, d) {
      SamePrefix(a, b, Seen(a, d), Index(a, d));
      SamePrefix(a, b, Seen(a, d), Index(a, d) - 1);
    }
    hide SignalAt, Breadth, SameRows, EntryRuleOn;
  }

  lemma {:induction false} SignalAlike(env: Env, env': Env, c: int, st: State, busy: set<int>, a: Stock, b: Stock)
    requires SameRows(env, env', c) && SameHistory(c, a, b)
    requires a == env.Series(a.id) && b == env'.Series(a.id)
    requires Free(env, c, st, busy, a) ==> NextAgrees(env, env', c, a.id)
    ensures SignalOne(env, c, st, busy, a) == SignalOne(env', c, st, busy, b)
    ensures Free(env, c, st, busy, a) <==> Free(env', c, st, busy, b)
  {
    SameFires(env, env', c, a, b);
    hide FiresOn, EntryRuleOn, NextDate, SameHistories;
  }

  /** A free signal with a further session queues an entry for it. */
  lemma {:induction false} EntryQueued(env: Env, d: int, st: State, busy: set<int>, s: Stock)
    requires Free(env, d, st, busy, s)
    ensures Awaited(SignalOne(env, d, st, busy, s).0.pending, s.id, NextDate(env, s, d))
  {
    FiresOnByRule(env, s, d);
    hide FiresOn, EntryRuleOn, NextDate;
    var next := NextDate(env, s, d);
    if next.Some? {
      var o := EntryOrder(s, d, next.value);
      assert SignalOne(env, d, st, busy, s).0.pending == st.pending + [o];
      assert o in SignalOne(env, d, st, busy, s).0.pending;
    }
  }

  lemma {:induction false} SignalApart(env: Env, env': Env, c: int, d: int, st: State, busy: set<int>, a: Stock,
                                       b: Stock)
    requires c <= d && SameRows(env, env', d) && SameHistory(c, a, b)
    requires a == env.Series(a.id) && b == env'.Series(a.id)
    requires Free(env, c, st, busy, a) && !NextAgrees(env, env', c, a.id)
    ensures Apart(env, env', d, SignalOne(env, c, st, busy, a).0.pending, SignalOne(env', c, st, busy, b).0.pending)
  {
    RowsEarlier(env, env', c, d);
    SameFires(env, env', c, a, b);
    assert Free(env', c, st, busy, b);
    EntryQueued(env, c, st, busy, a);
    EntryQueued(env', c, st, busy, b);
    hide SameRows, Free, SignalOne, Apart, NextDate, Awaited, EntryRuleOn, FiresOn;
    ComeApart(env, env', c, d, a.id, SignalOne(env, c, st, busy, a).0.pending,
              SignalOne(env', c, st, busy, b).0.pending);
  }

  lemma {:induction false} SignalsGrow(env: Env, d: int, st: State, busy: set<int>, stocks: seq<Stock>)
    ensures st.pending <= SignalAll(env, d, st, busy, stocks).pending
    decreases |stocks|
  {
    hide FiresOn, NextDate;
    if stocks != [] {
      var (st', busy') := SignalOne(env, d, st, busy, stocks[0]);
      SignalsGrow(env, d, st', busy', stocks[1..]);
    }
  }

  lemma {:induction false} SignalsAskSplit(env: Env, env': Env, c: int, st: State, busy: set<int>,
                                           stocks: seq<Stock>)
    requires stocks != []
    ensures var (st', busy') := SignalOne(env, c, st, busy, stocks[0]);
            AllAgree(env, env', c, SignalsAsk(env, c, st, busy, stocks))
            <==> (Free(env, c, st, busy, stocks[0]) ==> NextAgrees(env, env', c, stocks[0].id))
                 && AllAgree(env, env', c, SignalsAsk(env, c, st', busy', stocks[1..]))
  {
    hide Free, NextAgrees, SignalOne;
    var (st', busy') := SignalOne(env, c, st, busy, stocks[0]);
    var rest := FreeSignals(env, c, st', busy', stocks[1..]);
    var free := if Free(env, c, st, busy, stocks[0]) then [stocks[0]] else [];
    assert FreeSignals(env, c, st, busy, stocks) == free + rest;
    assert forall s :: s in free + rest <==> s in free || s in rest;
    assert SignalsAsk(env, c, st, busy, stocks)
        == (set s | s in free :: s.id) + SignalsAsk(env, c, st', busy', stocks[1..]);
  }

  ghost predicate Listed(env: Env, stocks: seq<Stock>) {
    forall i :: 0 <= i < |stocks| ==> stocks[i] == env.Series(stocks[i].id)
  }

  lemma {:induction false} UniverseListed(env: Env)
    ensures Listed(env, env.universe)
  {
    forall i | 0 <= i < |env.universe| ensures env.universe[i] == env.Series(env.universe[i].id) {
      LookupMember(env, env.universe[i]);
    }
  }

  lemma {:induction false} HeadAndTail(env: Env, env': Env, c: int, u: seq<Stock>, u': seq<Stock>)
    requires u != [] && SameHistories(c, u, u') && Listed(env, u) && Listed(env', u')
    ensures |u| == |u'| && u[0].id == u'[0].id && SameHistory(c, u[0], u'[0])
    ensures u[0] == env.Series(u[0].id) && u'[0] == env'.Series(u[0].id)
    ensures SameHistories(c, u[1..], u'[1..]) && Listed(env, u[1..]) && Listed(env', u'[1..])
  {
    assert SameHistory(c, u[0], u'[0]);
  }

  lemma {:induction false} SignalAllHead(env: Env, d: int, st: State, busy: set<int>, u: seq<Stock>)
    requires u != []
    ensures var (st', busy') := SignalOne(env, d, st, busy, u[0]);
            SignalAll(env, d, st, busy, u) == SignalAll(env, d, st', busy', u[1..])
  {
    hide SignalOne;
  }

  lemma {:induction false} SignalsTrack(env: Env, env': Env, c: int, d: int, st: State, busy: set<int>, u: seq<Stock>,
                                        u': seq<Stock>)
    requires c <= d && SameRows(env, env', d) && SameHistories(c, u, u') && Listed(env, u) && Listed(env', u')
    ensures Tracks(env, env', d, AllAgree(env, env', c, SignalsAsk(env, c, st, busy, u)),
                   SignalAll(env, c, st, busy, u), SignalAll(env', c, st, busy, u'))
    decreases |u|
  {
    if u != [] {
      hide SameRows, SameHistories, SameHistory, Listed, SignalOne, SignalAll, SignalsAsk, AllAgree, Free, Apart,
           NextAgrees;
      RowsEarlier(env, env', c, d);
      HeadAndTail(env, env', c, u, u');
      SignalAllHead(env, c, st, busy, u);
      SignalAllHead(env', c, st, busy, u');
      SignalsAskSplit(env, env', c, st, busy, u);
      var (x, b) := SignalOne(env, c, st, busy, u[0]);
      var (y, b') := SignalOne(env', c, st, busy, u'[0]);
      if Free(env, c, st, busy, u[0]) && !NextAgrees(env, env', c, u[0].id) {
        SignalApart(env, env', c, d, st, busy, u[0], u'[0]);
        SignalsGrow(env, c, x, b, u[1..]);
        SignalsGrow(env', c, y, b', u'[1..]);
        GrowApart(env, env', d, x.pending, y.pending, SignalAll(env, c, x, b, u[1..]).pending,
                  SignalAll(env', c, y, b', u'[1..]).pending);
      } else {
        SignalAlike(env, env', c, st, busy, u[0], u'[0]);
        SignalsTrack(env, env', c, d, x, b, u[1..], u'[1..]);
      }
    }
  }

  // ---- Whole days ----

  lemma {:induction false} EntriesPast(env: Env, t: int, d: int, st: State)
    requires Consecutive(env, t, d) && Inv(env, t, st)
    ensures forall p :: p in ExecuteOrders(env, d, st).positions ==> p.entryDate <= d
  {
    OrdersKept(env, t, d, st);
    var st' := ExecuteOrders(env, d, st);
    assert PositionsOk(env, d, t, st'.positions, st'.pending);
    hide Inv, Consecutive, EntryOk, PaidOk, Linked, ExecuteOrders, Between;
  }

  /** After the first phase the rest of the day only adds orders. */
  lemma {:induction false} DayGrows(env: Env, d: int, st: State)
    ensures DetectExits(env, d, st).pending <= MarkToMarket(d, DetectSignals(env, d, DetectExits(env, d, st))).pending
    ensures st.pending <= DetectExits(env, d, st).pending
  {
    hide ExitAll, SignalAll;
    ExitsGrow(env, d, IdsOn(Sell, st.pending), st.(positions := []), st.positions);
    var scanned := DetectExits(env, d, st);
    SignalsGrow(env, d, scanned, PositionIds(scanned.positions) + IdsOn(Buy, scanned.pending), env.universe);
  }

  function Rest(env: Env, d: int, st: State): State {
    MarkToMarket(d, DetectSignals(env, d, DetectExits(env, d, st)))
  }

  lemma {:induction false} RestGrows(env: Env, d: int, st: State)
    ensures st.pending <= Rest(env, d, st).pending
  {
    hide DetectExits, DetectSignals, MarkToMarket;
    DayGrows(env, d, st);
  }

  /** The second and third phase from one common state. */
  lemma {:induction false} RestTracks(env: Env, env': Env, c: int, d: int, st: State)
    requires c <= d && SameRows(env, env', d) && forall p :: p in st.positions ==> p.entryDate <= c
    ensures var scanned := DetectExits(env, c, st);
            Tracks(env, env', d,
                   && AllAgree(env, env', c, PositionsAsk(env, c, IdsOn(Sell, st.pending), st.positions))
                   && AllAgree(env, env', c, SignalsAsk(env, c, scanned,
                                                        PositionIds(scanned.positions) + IdsOn(Buy, scanned.pending),
                                                        env.universe)),
                   Rest(env, c, st), Rest(env', c, st))
  {
    RowsEarlier(env, env', c, d);
    assert SameHistories(c, env.universe, env'.universe);
    hide SameRows, SameHistories, ExitAll, SignalAll, Apart, AllAgree, PositionsAsk, SignalsAsk;
    var selling := IdsOn(Sell, st.pending);
    PositionsTrack(env, env', c, d, selling, st.(positions := []), st.positions);
    var x, y := DetectExits(env, c, st), DetectExits(env', c, st);
    if AllAgree(env, env', c, PositionsAsk(env, c, selling, st.positions)) {
      UniverseListed(env);
      UniverseListed(env');
      SignalsTrack(env, env', c, d, x, PositionIds(x.positions) + IdsOn(Buy, x.pending), env.universe, env'.universe);
    } else {
      DayGrows(env, c, st);
      DayGrows(env', c, st);
      GrowApart(env, env', d, x.pending, y.pending, Rest(env, c, st).pending, Rest(env', c, st).pending);
    }
  }

  lemma {:induction false} AgreeOnAll(env: Env, env': Env, c: int, a: set<int>, b: set<int>)
    ensures AllAgree(env, env', c, a + b) <==> AllAgree(env, env', c, a) && AllAgree(env, env', c, b)
  {
    hide NextAgrees;
    assert a <= a + b && b <= a + b;
  }

  /** One day from one common state: the runs stay together exactly as long as all answers agree. */
  lemma {:induction false} DayTracks(env: Env, env': Env, t: int, c: int, d: int, st: State)
    requires c <= d && SameRows(env, env', d) && Consecutive(env, t, c) && Inv(env, t, st)
    ensures Tracks(env, env', d, AllAgree(env, env', c, DayAsks(env, c, st)), Day(env, c, st), Day(env', c, st))
  {
    EntriesPast(env, t, c, st);
    hide SameRows, Consecutive, Inv, ExecuteAll, DetectExits, DetectSignals, MarkToMarket, Apart, AllAgree, OrdersAsk,
         PositionsAsk, SignalsAsk;
    OrdersTrack(env, env', c, d, st.(pending := []), st.pending);
    var x, y := ExecuteOrders(env, c, st), ExecuteOrders(env', c, st);
    var scanned := DetectExits(env, c, x);
    var busy := PositionIds(scanned.positions) + IdsOn(Buy, scanned.pending);
    var a, b := OrdersAsk(env, c, st.pending), PositionsAsk(env, c, IdsOn(Sell, x.pending), x.positions);
    AgreeOnAll(env, env', c, a, b);
    AgreeOnAll(env, env', c, a + b, SignalsAsk(env, c, scanned, busy, env.universe));
    if AllAgree(env, env', c, a) {
      RestTracks(env, env', c, d, x);
    } else {
      RestGrows(env, c, x);
      RestGrows(env', c, y);
      GrowApart(env, env', d, x.pending, y.pending, Rest(env, c, x).pending, Rest(env', c, y).pending);
    }
  }

  /** No day up to `d` loses an order for a session after it. */
  lemma {:induction false} DayKeepsLate(env: Env, c: int, d: int, st: State)
    requires c <= d
    ensures KeepsLate(d, st.pending, Day(env, c, st).pending)
  {
    hide ExecuteAll, DetectExits, DetectSignals, MarkToMarket;
    ExecuteGrows(env, c, st.(pending := []), st.pending);
    RestGrows(env, c, ExecuteOrders(env, c, st));
  }

  // ---- Every order waits for its stock's next session ----

  lemma {:induction false} TargetIsNative(env: Env, c: int, d: int, s: Stock, o: Order)
    requires c <= d && s == env.Series(o.stockId) && NextDate(env, s, c) == Some(o.targetDate)
    ensures !Foreign(env, d, o)
  {
    if d < o.targetDate {
      NextStays(env, s, c, d);
    }
  }

  /** An order that stays in the queue keeps its target or takes the next session of its stock. */
  ghost predicate Requeued(env: Env, d: int, o: Order, x: Order) {
    x.stockId == o.stockId
    && (x.targetDate == o.targetDate || NextDate(env, env.Series(o.stockId), d) == Some(x.targetDate))
  }

  lemma {:induction false} OrderRequeued(env: Env, d: int, st: State, o: Order)
    ensures forall x :: x in ExecuteOne(env, d, st, o).pending ==> x in st.pending || Requeued(env, d, o, x)
  {
    hide Tradable, NextDate, Sized, FillOf, Proceeds, TradeOf;
  }

  lemma {:induction false} RequeuedNative(env: Env, c: int, d: int, o: Order, x: Order)
    requires c <= d && !Foreign(env, d, o) && Requeued(env, c, o, x)
    ensures !Foreign(env, d, x)
  {
    if NextDate(env, env.Series(o.stockId), c) == Some(x.targetDate) {
      TargetIsNative(env, c, d, env.Series(o.stockId), x);
    }
    hide NextDate;
  }

  lemma {:induction false} OrderNative(env: Env, c: int, d: int, st: State, o: Order)
    requires c <= d && Native(env, d, st.pending) && !Foreign(env, d, o)
    ensures Native(env, d, ExecuteOne(env, c, st, o).pending)
  {
    hide ExecuteOne, Foreign, Requeued;
    OrderRequeued(env, c, st, o);
    forall x | x in ExecuteOne(env, c, st, o).pending ensures !Foreign(env, d, x) {
      if x !in st.pending {
        RequeuedNative(env, c, d, o, x);
      }
    }
  }

  lemma {:induction false} OrdersNative(env: Env, c: int, d: int, st: State, orders: seq<Order>)
    requires c <= d && Native(env, d, st.pending) && Native(env, d, orders)
    ensures Native(env, d, ExecuteAll(env, c, st, orders).pending)
    decreases |orders|
  {
    hide ExecuteOne, Foreign;
    if orders != [] {
      OrderNative(env, c, d, st, orders[0]);
      OrdersNative(env, c, d, ExecuteOne(env, c, st, orders[0]), orders[1..]);
    }
  }

  lemma {:induction false} PositionNative(env: Env, c: int, d: int, selling: set<int>, st: State, p: Position)
    requires c <= d && Native(env, d, st.pending)
    ensures Native(env, d, ExitOne(env, c, selling, st, p).pending)
  {
    hide Triggers, EntryIndex, NextDate, ExitReason, Refreshed, Proceeds, TradeOf, Foreign;
    var s := env.Series(p.stockId);
    var next := NextDate(env, s, c);
    if HasSession(s, c) && next.Some? {
      TargetIsNative(env, c, d, s, Order(p.stockId, Sell, c, next.value, EXIT_RETRY_SESSIONS,
                                         ExitReason(env.cfg, RowAt(s, c), p.entryExec)));
    }
  }

  lemma {:induction false} PositionsNative(env: Env, c: int, d: int, selling: set<int>, st: State, ps: seq<Position>)
    requires c <= d && Native(env, d, st.pending)
    ensures Native(env, d, ExitAll(env, c, selling, st, ps).pending)
    decreases |ps|
  {
    hide ExitOne, Foreign;
    if ps != [] {
      PositionNative(env, c, d, selling, st, ps[0]);
      PositionsNative(env, c, d, selling, ExitOne(env, c, selling, st, ps[0]), ps[1..]);
    }
  }

  lemma {:induction false} SignalsNative(env: Env, c: int, d: int, st: State, busy: set<int>, stocks: seq<Stock>)
    requires c <= d && Native(env, d, st.pending) && Listed(env, stocks)
    ensures Native(env, d, SignalAll(env, c, st, busy, stocks).pending)
    decreases |stocks|
  {
    hide FiresOn, NextDate, Foreign;
    if stocks != [] {
      var s := stocks[0];
      var next := NextDate(env, s, c);
      if next.Some? {
        TargetIsNative(env, c, d, s, EntryOrder(s, c, next.value));
      }
      var (st', busy') := SignalOne(env, c, st, busy, s);
      SignalsNative(env, c, d, st', busy', stocks[1..]);
    }
  }

  lemma {:induction false} DayNative(env: Env, c: int, d: int, st: State)
    requires c <= d && Native(env, d, st.pending)
    ensures Native(env, d, Day(env, c, st).pending)
  {
    hide ExecuteAll, ExitAll, SignalAll, Native;
    assert Native(env, d, []) by {
      NothingForeign(env, d);
    }
    OrdersNative(env, c, d, st.(pending := []), st.pending);
    var x := ExecuteOrders(env, c, st);
    PositionsNative(env, c, d, IdsOn(Sell, x.pending), x.(positions := []), x.positions);
    var scanned := DetectExits(env, c, x);
    UniverseListed(env);
    SignalsNative(env, c, d, scanned, PositionIds(scanned.positions) + IdsOn(Buy, scanned.pending), env.universe);
  }

  lemma {:induction false} NothingForeign(env: Env, d: int)
    ensures Native(env, d, [])
  {
  }

  lemma {:induction false} RunNative(env: Env, d: int, j: nat)
    requires j <= |DaysOf(env)| && (0 < j ==> DaysOf(env)[j - 1] <= d)
    ensures Native(env, d, StateAfter(env, j).pending)
  {
    hide StateAfter, Day, Native;
    if j == 0 {
      StateAfterNone(env);
      NothingForeign(env, d);
    } else {
      if 1 < j {
        assert DaysOf(env)[j - 2] < DaysOf(env)[j - 1];
      }
      RunNative(env, d, j - 1);
      StateAfterNext(env, j - 1);
      DayNative(env, DaysOf(env)[j - 1], d, StateAfter(env, j - 1));
    }
  }

  /** After every day each order for a later session waits for the very next session of its stock. */
  lemma {:induction false} OrdersAwaitNextSession(env: Env, k: nat, o: Order)
    requires 0 < k <= |DaysOf(env)|
    requires o in StateAfter(env, k).pending && DaysOf(env)[k - 1] < o.targetDate
    ensures NextDate(env, env.Series(o.stockId), DaysOf(env)[k - 1]) == Some(o.targetDate)
  {
    hide StateAfter, NextDate;
    RunNative(env, DaysOf(env)[k - 1], k);
    assert !Foreign(env, DaysOf(env)[k - 1], o);
  }

  // ---- Calendars ----

  /** How many days of the calendar lie on or before `d`. */
  function DaysThrough(env: Env, d: int): (k: nat)
    ensures k <= |DaysOf(env)|
  {
    BisectRight(DaysOf(env), d)
  }

  lemma {:induction false} PrefixDays(env: Env, d: int, x: int)
    ensures x in DaysOf(env)[..DaysThrough(env, d)]
            <==> x <= d && exists s :: s in env.universe && x in s.dates && InWindow(x, env.startDate, env.endDate)
  {
    var days, k := DaysOf(env), DaysThrough(env, d);
    assert x in days <==> exists s :: s in env.universe && x in s.dates && InWindow(x, env.startDate, env.endDate);
    if x in days && x <= d {
      var i :| 0 <= i < |days| && days[i] == x;
      assert i < k;
      assert days[..k][i] == x;
    }
    if x in days[..k] {
      var i :| 0 <= i < k && days[i] == x;
      assert x in days;
      assert days[i] <= days[k - 1];
    }
  }

  lemma {:induction false} SameSessions(env: Env, env': Env, d: int, i: nat, x: int)
    requires SameRows(env, env', d) && i < |env.universe| && x <= d && x in env.universe[i].dates
    ensures x in env'.universe[i].dates
  {
    var a, b := env.universe[i], env'.universe[i];
    HistoryEarlier(x, d, a, b);
    SameToday(x, a, b);
  }

  lemma {:induction false} PrefixContained(env: Env, env': Env, d: int, x: int)
    requires SameRows(env, env', d) && x in DaysOf(env)[..DaysThrough(env, d)]
    ensures x in DaysOf(env')[..DaysThrough(env', d)]
  {
    hide SameHistory, DaysOf, DaysThrough;
    PrefixDays(env, d, x);
    PrefixDays(env', d, x);
    var s :| s in env.universe && x in s.dates && InWindow(x, env.startDate, env.endDate);
    var i :| 0 <= i < |env.universe| && env.universe[i] == s;
    SameSessions(env, env', d, i, x);
    assert env'.universe[i] in env'.universe;
  }

  lemma {:induction false} SameCalendar(env: Env, env': Env, d: int)
    requires SameRows(env, env', d)
    ensures DaysThrough(env, d) == DaysThrough(env', d)
    ensures DaysOf(env)[..DaysThrough(env, d)] == DaysOf(env')[..DaysThrough(env', d)]
  {
    RowsSymmetric(env, env', d);
    hide SameRows;
    var a, b := DaysOf(env)[..DaysThrough(env, d)], DaysOf(env')[..DaysThrough(env', d)];
    forall x ensures x in a <==> x in b {
      if x in a {
        PrefixContained(env, env', d, x);
      }
      if x in b {
        PrefixContained(env', env, d, x);
      }
    }
    SortedUnique(a, b);
  }

  lemma {:induction false} SameDayOfCalendar(env: Env, env': Env, d: int, j: nat)
    requires SameRows(env, env', d) && j < DaysThrough(env, d)
    ensures j < |DaysOf(env')| && DaysOf(env')[j] == DaysOf(env)[j] <= d
  {
    hide SameRows;
    SameCalendar(env, env', d);
    var k := DaysThrough(env, d);
    assert DaysOf(env)[..k][j] == DaysOf(env')[..k][j];
    assert DaysOf(env)[j] <= DaysOf(env)[k - 1];
  }

  // ---- Whole runs ----

  /** The state once every calendar day on or before `d` has been processed. */
  function StateThrough(env: Env, d: int): State {
    StateAfter(env, DaysThrough(env, d))
  }

  /** The answers to all steps of the first `j` days agree. */
  ghost predicate AnswersAgree(env: Env, env': Env, j: nat)
    requires j <= |DaysOf(env)|
  {
    forall i :: 0 <= i < j ==> AllAgree(env, env', DaysOf(env)[i], DayAsks(env, DaysOf(env)[i], StateAfter(env, i)))
  }

  lemma {:induction false} RunsStartTogether(env: Env, env': Env, d: int)
    requires SameRows(env, env', d)
    ensures Tracks(env, env', d, AnswersAgree(env, env', 0), StateAfter(env, 0), StateAfter(env', 0))
  {
    hide DayAsks;
    StateAfterNone(env);
    StateAfterNone(env');
  }

  lemma {:induction false} RunTracks(env: Env, env': Env, d: int, j: nat)
    requires SameRows(env, env', d) && j <= DaysThrough(env, d)
    ensures j <= |DaysOf(env')|
    ensures Tracks(env, env', d, AnswersAgree(env, env', j), StateAfter(env, j), StateAfter(env', j))
  {
    hide SameRows, StateAfter, Tracks, DaysOf, DaysThrough, AnswersAgree;
    if j == 0 {
      RunsStartTogether(env, env', d);
    } else {
      SameDayOfCalendar(env, env', d, j - 1);
      RunTracks(env, env', d, j - 1);
      NextTracks(env, env', d, j - 1);
    }
  }

  lemma {:induction false} NextTracks(env: Env, env': Env, d: int, j: nat)
    requires SameRows(env, env', d) && j < |DaysOf(env)| && j < |DaysOf(env')|
    requires DaysOf(env')[j] == DaysOf(env)[j] <= d
    requires Tracks(env, env', d, AnswersAgree(env, env', j), StateAfter(env, j), StateAfter(env', j))
    ensures Tracks(env, env', d, AnswersAgree(env, env', j + 1), StateAfter(env, j + 1), StateAfter(env', j + 1))
  {
    hide Inv, SameRows, StateAfter, Day, Consecutive, DaysOf, DayAsks, AllAgree, Apart, KeepsLate;
    var c := DaysOf(env)[j];
    StateAfterNext(env, j);
    StateAfterNext(env', j);
    var x, y := StateAfter(env, j), StateAfter(env', j);
    assert AnswersAgree(env, env', j + 1)
           <==> AnswersAgree(env, env', j) && AllAgree(env, env', c, DayAsks(env, c, x));
    if AnswersAgree(env, env', j) {
      RunKeeps(env, j);
      NothingSkipped(env, j);
      DayTracks(env, env', Through(env, DaysOf(env), j), c, d, x);
    } else {
      DayKeepsLate(env, c, d, x);
      DayKeepsLate(env', c, d, y);
      ApartStays(env, env', d, x.pending, y.pending, Day(env, c, x).pending, Day(env', c, y).pending);
    }
  }

  /** Equal in everything the program holds: cash, positions, pending orders, trades, rejections and curve. */
  predicate SameProgramState(a: State, b: State) {
    a.(audit := b.audit) == b
  }

  /**
   The exact extent of look-ahead. Two universes with the same rows through day `d` have the same state after it if
   and only if they agree on each next session that a step up to `d` asked for: a retry with attempts left, an exit
   trigger without an order, an entry signal that found its stock free and a slot open.
   */
  lemma {:induction false} StatesAgreeExactlyWhen(env: Env, env': Env, d: int)
    requires SameRows(env, env', d)
    ensures SameProgramState(StateThrough(env, d), StateThrough(env', d))
            <==> AnswersAgree(env, env', DaysThrough(env, d))
  {
    hide SameRows, StateAfter, AnswersAgree, Apart, Native;
    SameCalendar(env, env', d);
    var k := DaysThrough(env, d);
    RunTracks(env, env', d, k);
    if !AnswersAgree(env, env', k) {
      RunNative(env, d, k);
      RunNative(env', d, k);
      ApartDiffer(env, env', d, StateAfter(env, k).pending, StateAfter(env', k).pending);
    }
  }

  /** The same rows through `d` and, for every stock, the same session after it. */
  ghost predicate SamePast(env: Env, env': Env, d: int) {
    SameRows(env, env', d) && forall id :: NextAgrees(env, env', d, id)
  }

  /**
   Two universes with the same past have the same cash, positions, pending orders, trades, rejections and equity curve
   after day `d`, whatever happens after the next session of each stock.
   */
  lemma {:induction false} PastDecidesPresent(env: Env, env': Env, d: int)
    requires SamePast(env, env', d)
    ensures StateThrough(env, d) == StateThrough(env', d)
  {
    hide SameRows, StateAfter, NextAgrees, DayAsks;
    SameCalendar(env, env', d);
    var k := DaysThrough(env, d);
    forall i, id | 0 <= i < k && id in DayAsks(env, DaysOf(env)[i], StateAfter(env, i))
      ensures NextAgrees(env, env', DaysOf(env)[i], id)
    {
      SameDayOfCalendar(env, env', d, i);
      AgreedBefore(env, env', DaysOf(env)[i], d, id);
    }
    RunTracks(env, env', d, k);
  }

  lemma {:induction false} AgreedBefore(env: Env, env': Env, c: int, d: int, id: int)
    requires c <= d && SameRows(env, env', d) && NextAgrees(env, env', d, id)
    ensures NextAgrees(env, env', c, id)
  {
    if !NextAgrees(env, env', c, id) {
      NextBeyond(env, env', c, d, id);
    }
  }
}
