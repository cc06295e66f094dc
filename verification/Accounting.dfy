/** What the counters of a run count, told from the signals, the queues and the rows themselves. */
module Accounting {
  import opened MarketData
  import opened Signals
  import opened Engine
  import opened Invariants
  import opened SignalProofs
  import opened Calendars
  import opened RunProofs
  import opened Rules
  import opened PhaseRules

  // ---- One day ----

  /** The stocks among `stocks` that fire an entry signal on day `d`. */
  ghost function Firing(env: Env, d: int, stocks: seq<Stock>): set<Stock> {
    set s | s in stocks && EntryRuleOn(env, s, d)
  }

  /** Those of `stocks` that have no further session in the window. */
  function WithoutSession(env: Env, d: int, stocks: seq<Stock>): nat {
    if stocks == [] then 0
    else (if NextDate(env, stocks[0], d).None? then 1 else 0) + WithoutSession(env, d, stocks[1..])
  }

  /** Entry orders due on a session that trades, but opens at no positive price. */
  function DroppedOn(env: Env, d: int, orders: seq<Order>): nat {
    if orders == [] then 0
    else (if Drops(env, d, orders[0]) then 1 else 0) + DroppedOn(env, d, orders[1..])
  }

  predicate Drops(env: Env, d: int, o: Order) {
    var s := env.Series(o.stockId);
    o.side == Buy && o.targetDate <= d && Tradable(s, d) && RowAt(s, d).open <= 0.0
  }

  /** The state in which the signals of day `d` are heard. */
  function Hearing(env: Env, d: int, st: State): State {
    DetectExits(env, d, ExecuteOrders(env, d, st))
  }

  function BusyIn(st: State): set<int> {
    PositionIds(st.positions) + IdsOn(Buy, st.pending)
  }

  /** How many orders the signals of day `d` add to the queue. */
  function QueuedOn(env: Env, d: int, st: State): int {
    |DetectSignals(env, d, Hearing(env, d, st)).pending| - |Hearing(env, d, st).pending|
  }

  /** How many signals of day `d` find their stock free and a slot open, but no session to fill them. */
  ghost function UnfillableOn(env: Env, d: int, st: State): nat {
    var x := Hearing(env, d, st);
    WithoutSession(env, d, FreeSignals(env, d, x, BusyIn(x), env.universe))
  }

  // ---- The first `k` days ----

  /** How many pairs of a calendar day and a stock fire an entry signal. */
  ghost function SignalsFired(env: Env, k: nat): nat
    requires k <= |DaysOf(env)|
  {
    if k == 0 then 0 else SignalsFired(env, k - 1) + |Firing(env, DaysOf(env)[k - 1], env.universe)|
  }

  function OrdersQueued(env: Env, k: nat): int
    requires k <= |DaysOf(env)|
  {
    if k == 0 then 0
    else OrdersQueued(env, k - 1) + QueuedOn(env, DaysOf(env)[k - 1], StateAfter(env, k - 1))
  }

  ghost function SignalsUnfillable(env: Env, k: nat): nat
    requires k <= |DaysOf(env)|
  {
    if k == 0 then 0
    else SignalsUnfillable(env, k - 1) + UnfillableOn(env, DaysOf(env)[k - 1], StateAfter(env, k - 1))
  }

  function OrdersDropped(env: Env, k: nat): nat
    requires k <= |DaysOf(env)|
  {
    if k == 0 then 0
    else OrdersDropped(env, k - 1) + DroppedOn(env, DaysOf(env)[k - 1], StateAfter(env, k - 1).pending)
  }

  // ---- The history counters are these counts ----

  lemma {:induction false} OrderCounted(env: Env, d: int, st: State, o: Order)
    ensures var before, after := st.audit, ExecuteOne(env, d, st, o).audit;
            after == before.(entered := after.entered,
                             droppedAtOpen := before.droppedAtOpen + (if Drops(env, d, o) then 1 else 0))
  {
    hide NextDate, Sized, FillOf, Proceeds, TradeOf, NewPosition;
  }

  lemma {:induction false} OrdersCounted(env: Env, d: int, st: State, orders: seq<Order>)
    ensures var before, after := st.audit, ExecuteAll(env, d, st, orders).audit;
            after == before.(entered := after.entered,
                             droppedAtOpen := before.droppedAtOpen + DroppedOn(env, d, orders))
    decreases |orders|
  {
    hide ExecuteOne, Drops;
    if orders != [] {
      OrderCounted(env, d, st, orders[0]);
      OrdersCounted(env, d, ExecuteOne(env, d, st, orders[0]), orders[1..]);
    }
  }

  lemma {:induction false} ExitsUncounted(env: Env, d: int, selling: set<int>, st: State, ps: seq<Position>)
    ensures ExitAll(env, d, selling, st, ps).audit == st.audit
    decreases |ps|
  {
    hide Triggers, EntryIndex, NextDate, ExitReason, Refreshed, Proceeds, TradeOf;
    if ps != [] {
      ExitsUncounted(env, d, selling, ExitOne(env, d, selling, st, ps[0]), ps[1..]);
    }
  }

  lemma {:induction false} SignalCounts(env: Env, d: int, st: State, busy: set<int>, s: Stock)
    ensures var st' := SignalOne(env, d, st, busy, s).0;
            var free, next := Free(env, d, st, busy, s), NextDate(env, s, d);
            && st'.audit.fired == st.audit.fired + (if EntryRuleOn(env, s, d) then 1 else 0)
            && st'.audit.noNextSession == st.audit.noNextSession + (if free && next.None? then 1 else 0)
            && st'.audit.scheduled - st.audit.scheduled == |st'.pending| - |st.pending|
            && st'.audit.entered == st.audit.entered && st'.audit.droppedAtOpen == st.audit.droppedAtOpen
  {
    FiresOnByRule(env, s, d);
    hide FiresOn, EntryRuleOn, NextDate;
  }

  lemma {:induction false} FiringSplit(env: Env, d: int, stocks: seq<Stock>)
    requires stocks != [] && DistinctIds(stocks)
    ensures DistinctIds(stocks[1..])
    ensures |Firing(env, d, stocks)|
            == |Firing(env, d, stocks[1..])| + (if EntryRuleOn(env, stocks[0], d) then 1 else 0)
  {
    hide EntryRuleOn;
    var s, rest := stocks[0], stocks[1..];
    assert forall x :: x in stocks <==> x == s || x in rest;
    assert s !in rest;
    assert Firing(env, d, stocks) == Firing(env, d, rest) + (if EntryRuleOn(env, s, d) then {s} else {});
  }

  lemma {:induction false} FreeSplit(env: Env, d: int, st: State, busy: set<int>, stocks: seq<Stock>)
    requires stocks != []
    ensures var (st', busy') := SignalOne(env, d, st, busy, stocks[0]);
            WithoutSession(env, d, FreeSignals(env, d, st, busy, stocks))
            == (if Free(env, d, st, busy, stocks[0]) && NextDate(env, stocks[0], d).None? then 1 else 0)
               + WithoutSession(env, d, FreeSignals(env, d, st', busy', stocks[1..]))
  {
    hide Free, NextDate, SignalOne;
    var (st', busy') := SignalOne(env, d, st, busy, stocks[0]);
    var rest := FreeSignals(env, d, st', busy', stocks[1..]);
    assert ([stocks[0]] + rest)[1..] == rest;
    assert [] + rest == rest;
  }

  lemma {:induction false} SignalsCounted(env: Env, d: int, st: State, busy: set<int>, stocks: seq<Stock>)
    requires DistinctIds(stocks)
    ensures var st' := SignalAll(env, d, st, busy, stocks);
            && st'.audit.fired == st.audit.fired + |Firing(env, d, stocks)|
            && st'.audit.noNextSession
               == st.audit.noNextSession + WithoutSession(env, d, FreeSignals(env, d, st, busy, stocks))
            && st'.audit.scheduled - st.audit.scheduled == |st'.pending| - |st.pending|
            && st'.audit.entered == st.audit.entered && st'.audit.droppedAtOpen == st.audit.droppedAtOpen
    decreases |stocks|
  {
    if stocks == [] {
      assert Firing(env, d, []) == {};
    } else {
      hide SignalOne, Free, EntryRuleOn, Firing, WithoutSession, FreeSignals, DistinctIds;
      FiringSplit(env, d, stocks);
      FreeSplit(env, d, st, busy, stocks);
      SignalCounts(env, d, st, busy, stocks[0]);
      var (st', busy') := SignalOne(env, d, st, busy, stocks[0]);
      SignalsCounted(env, d, st', busy', stocks[1..]);
    }
  }

  /**
   The signal phase: as many signals are heard as stocks call for an entry; each ends as a new order, as a rejection or
   without a session; every new order is called for; and neither account nor book moves.
   */
  ghost predicate SignalsByRule(env: Env, d: int, st: State, st': State) {
    && st'.audit.fired == st.audit.fired + |set s | s in env.universe && EntryRuleOn(env, s, d)|
    && st'.audit.fired - st.audit.fired
       == |st'.pending| - |st.pending| + st'.rejections.alreadyOpen - st.rejections.alreadyOpen
          + st'.rejections.maxPositions - st.rejections.maxPositions
          + st'.audit.noNextSession - st.audit.noNextSession
    && st.pending <= st'.pending
    && (forall o :: o in st'.pending ==> o in st.pending
                                         || exists s :: s in env.universe && CalledForToday(env, d, s, o))
    && st'.cash == st.cash && st'.positions == st.positions && st'.trades == st.trades && st'.curve == st.curve
  }

  lemma {:induction false} PhaseHeard(env: Env, d: int, st: State)
    ensures SignalsByRule(env, d, st, DetectSignals(env, d, st))
  {
    AllHeard(env, d, st, BusyIn(st), env.universe);
    SignalsCounted(env, d, st, BusyIn(st), env.universe);
    SignalsSplit(env, d, st, BusyIn(st), env.universe);
    hide SignalAll, EntryRuleOn, CalledForToday, WithoutSession, FreeSignals;
  }

  lemma {:induction false} SignalsSplit(env: Env, d: int, st: State, busy: set<int>, stocks: seq<Stock>)
    ensures var st' := SignalAll(env, d, st, busy, stocks);
            st'.audit.fired - st.audit.fired
            == |st'.pending| - |st.pending| + st'.rejections.alreadyOpen - st.rejections.alreadyOpen
               + st'.rejections.maxPositions - st.rejections.maxPositions
               + st'.audit.noNextSession - st.audit.noNextSession
    decreases |stocks|
  {
    hide FiresOn, NextDate;
    if stocks != [] {
      var (st', busy') := SignalOne(env, d, st, busy, stocks[0]);
      SignalsSplit(env, d, st', busy', stocks[1..]);
    }
  }

  lemma {:induction false} DayCounted(env: Env, d: int, st: State)
    ensures var before, after := st.audit, Day(env, d, st).audit;
            && after.fired == before.fired + |Firing(env, d, env.universe)|
            && after.scheduled == before.scheduled + QueuedOn(env, d, st)
            && after.noNextSession == before.noNextSession + UnfillableOn(env, d, st)
            && after.droppedAtOpen == before.droppedAtOpen + DroppedOn(env, d, st.pending)
  {
    hide ExecuteAll, ExitAll, SignalAll, Firing, WithoutSession, FreeSignals, DroppedOn;
    OrdersCounted(env, d, st.(pending := []), st.pending);
    var executed := ExecuteOrders(env, d, st);
    ExitsUncounted(env, d, IdsOn(Sell, executed.pending), executed.(positions := []), executed.positions);
    var x := Hearing(env, d, st);
    SignalsCounted(env, d, x, BusyIn(x), env.universe);
  }

  /** After any number of days the history counters count what their names say. */
  lemma {:induction false} CountersCount(env: Env, k: nat)
    requires k <= |DaysOf(env)|
    ensures var audit := StateAfter(env, k).audit;
            && audit.fired == SignalsFired(env, k) && audit.scheduled == OrdersQueued(env, k)
            && audit.noNextSession == SignalsUnfillable(env, k) && audit.droppedAtOpen == OrdersDropped(env, k)
  {
    hide Day, StateAfter, Firing, QueuedOn, UnfillableOn, DroppedOn, DaysOf;
    if k == 0 {
      StateAfterNone(env);
    } else {
      CountersCount(env, k - 1);
      StateAfterNext(env, k - 1);
      DayCounted(env, DaysOf(env)[k - 1], StateAfter(env, k - 1));
    }
  }

  // ---- Abandoned entries ----

  lemma {:induction false} ExitsKeepRejections(env: Env, d: int, selling: set<int>, st: State, ps: seq<Position>)
    ensures ExitAll(env, d, selling, st, ps).rejections == st.rejections
    decreases |ps|
  {
    hide Triggers, EntryIndex, NextDate, ExitReason, Refreshed, Proceeds, TradeOf;
    if ps != [] {
      ExitsKeepRejections(env, d, selling, ExitOne(env, d, selling, st, ps[0]), ps[1..]);
    }
  }

  lemma {:induction false} SignalsKeepAbandoned(env: Env, d: int, st: State, busy: set<int>, stocks: seq<Stock>)
    ensures SignalAll(env, d, st, busy, stocks).rejections.abandoned == st.rejections.abandoned
    decreases |stocks|
  {
    hide FiresOn, NextDate;
    if stocks != [] {
      var (st', busy') := SignalOne(env, d, st, busy, stocks[0]);
      SignalsKeepAbandoned(env, d, st', busy', stocks[1..]);
    }
  }

  /**
   A due entry order that has run out: no session of its stock traded from the signal's on through today's, and today's
   is the fifth one after it or the last one in the window.
   */
  ghost predicate Expires(env: Env, d: int, o: Order) {
    var s := env.Series(o.stockId);
    && o.side == Buy && o.targetDate <= d
    && HasSession(s, o.signalDate) && HasSession(s, d)
    && Quiet(s, Index(s, o.signalDate), Index(s, d) + 1)
    && (Index(s, d) - Index(s, o.signalDate) == 5 || NextDate(env, s, d).None?)
  }

  lemma {:induction false} DueToday(env: Env, t: int, d: int, o: Order)
    requires Consecutive(env, t, d) && BuyOk(env, t, o) && o.targetDate <= d
    ensures o.targetDate == d
  {
    hide EntryRule, Quiet;
    var s := env.Series(o.stockId);
    assert s in env.universe;
    assert s.dates[Index(s, o.targetDate)] == o.targetDate;
  }

  lemma {:induction false} QuietThrough(s: Stock, lo: int, d: int)
    requires HasSession(s, d) && Quiet(s, lo, Index(s, d)) && lo < Index(s, d)
    ensures Quiet(s, lo, Index(s, d) + 1) <==> !Tradable(s, d)
  {
    assert s.rows[Index(s, d)] == RowAt(s, d);
  }

  lemma {:induction false} ExpiresWhen(env: Env, t: int, d: int, o: Order)
    requires Consecutive(env, t, d) && BuyOk(env, t, o) && o.targetDate <= d && o.side == Buy
    ensures Expires(env, d, o)
            <==> !Tradable(env.Series(o.stockId), d)
                 && (o.attemptsLeft <= 1 || NextDate(env, env.Series(o.stockId), d).None?)
  {
    DueToday(env, t, d, o);
    QuietThrough(env.Series(o.stockId), Index(env.Series(o.stockId), o.signalDate), d);
    hide Consecutive, EntryRule, Quiet, Tradable, NextDate;
  }

  lemma {:induction false} AbandonedWhen(env: Env, d: int, st: State, o: Order)
    ensures ExecuteOne(env, d, st, o).rejections.abandoned
            == st.rejections.abandoned
               + (if && o.side == Buy && o.targetDate <= d && !Tradable(env.Series(o.stockId), d)
                     && (o.attemptsLeft <= 1 || NextDate(env, env.Series(o.stockId), d).None?)
                  then 1 else 0)
  {
    hide Tradable, NextDate, Sized, FillOf, Proceeds, TradeOf, NewPosition;
  }

  /** An entry order is abandoned exactly when it expires. */
  lemma {:induction false} AbandonedExactlyWhen(env: Env, t: int, d: int, st: State, o: Order)
    requires Consecutive(env, t, d) && OrderOk(env, t, o)
    ensures ExecuteOne(env, d, st, o).rejections.abandoned
            == st.rejections.abandoned + (if Expires(env, d, o) then 1 else 0)
  {
    hide ExecuteOne, Consecutive, BuyOk, SellOk, Tradable, NextDate;
    AbandonedWhen(env, d, st, o);
    if o.side == Buy && o.targetDate <= d {
      ExpiresWhen(env, t, d, o);
    }
  }

  ghost function ExpiredOn(env: Env, d: int, orders: seq<Order>): nat {
    if orders == [] then 0
    else (if Expires(env, d, orders[0]) then 1 else 0) + ExpiredOn(env, d, orders[1..])
  }

  /** How many entry orders expire on the first `k` days. */
  ghost function OrdersExpired(env: Env, k: nat): nat
    requires k <= |DaysOf(env)|
  {
    if k == 0 then 0
    else OrdersExpired(env, k - 1) + ExpiredOn(env, DaysOf(env)[k - 1], StateAfter(env, k - 1).pending)
  }

  lemma {:induction false} OrdersAbandoned(env: Env, t: int, d: int, st: State, orders: seq<Order>)
    requires Consecutive(env, t, d) && OrdersOk(env, t, orders)
    ensures ExecuteAll(env, d, st, orders).rejections.abandoned == st.rejections.abandoned + ExpiredOn(env, d, orders)
    decreases |orders|
  {
    hide Consecutive, OrderOk, ExecuteOne, Expires;
    if orders != [] {
      AbandonedExactlyWhen(env, t, d, st, orders[0]);
      OrdersAbandoned(env, t, d, ExecuteOne(env, d, st, orders[0]), orders[1..]);
    }
  }

  lemma {:induction false} DayAbandoned(env: Env, t: int, d: int, st: State)
    requires Consecutive(env, t, d) && OrdersOk(env, t, st.pending)
    ensures Day(env, d, st).rejections.abandoned == st.rejections.abandoned + ExpiredOn(env, d, st.pending)
  {
    hide Consecutive, OrdersOk, ExecuteAll, ExitAll, SignalAll, ExpiredOn;
    OrdersAbandoned(env, t, d, st.(pending := []), st.pending);
    var executed := ExecuteOrders(env, d, st);
    ExitsKeepRejections(env, d, IdsOn(Sell, executed.pending), executed.(positions := []), executed.positions);
    var x := Hearing(env, d, st);
    SignalsKeepAbandoned(env, d, x, BusyIn(x), env.universe);
  }

  lemma {:induction false} OrdersWait(env: Env, k: nat)
    requires k <= |DaysOf(env)|
    ensures OrdersOk(env, Through(env, DaysOf(env), k), StateAfter(env, k).pending)
  {
    RunKeeps(env, k);
    hide OrdersOk, Queue, PositionsOk, TradesOk, History, Books, StateAfter, DaysOf;
  }

  /** After any number of days the abandoned entries are those whose sessions have run out. */
  lemma {:induction false} AbandonedAreExpired(env: Env, k: nat)
    requires k <= |DaysOf(env)|
    ensures StateAfter(env, k).rejections.abandoned == OrdersExpired(env, k)
  {
    hide OrdersOk, Day, StateAfter, ExpiredOn, DaysOf, Consecutive;
    if k == 0 {
      StateAfterNone(env);
    } else {
      AbandonedAreExpired(env, k - 1);
      var t, d, st := Through(env, DaysOf(env), k - 1), DaysOf(env)[k - 1], StateAfter(env, k - 1);
      OrdersWait(env, k - 1);
      NothingSkipped(env, k - 1);
      StateAfterNext(env, k - 1);
      DayAbandoned(env, t, d, st);
    }
  }
}
