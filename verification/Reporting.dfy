/** The warnings of a run: which events the engine logs, which lines the report adds, and what they leave out. */
module Reporting {
  import opened Numbers
  import opened MarketData
  import opened Engine
  import opened Invariants
  import opened Fills
  import opened Calendars
  import opened RunProofs
  import opened Accounting
  import opened Outcomes

  /** Why a signal came to nothing, in the order in which the report lists the counters. */
  datatype Rejection = InsufficientLiquidityOrCash | MaxPositions | AlreadyOpen | EntryAbandoned

  const REJECTIONS := [InsufficientLiquidityOrCash, MaxPositions, AlreadyOpen, EntryAbandoned]

  datatype Warning =
    | SizedDown(stockId: int, shares: int, date: int)
    | Abandoned(stockId: int, signalDate: int)
    | ForceClosed(count: nat)
    | TradesExcluded(count: nat)
    | SignalsRejected(reason: Rejection, count: nat)

  const MAX_ENGINE_WARNINGS := 200

  // ---- What the engine logs ----

  /** A fill below the size that the equity fraction allows. */
  function OpenWarnings(cfg: Config, st: State, o: Order, d: int, row: Row): seq<Warning> {
    if Fillable(cfg, st, row) && Sized(cfg, st, row) < SharesBySize(cfg, st.cash + MarketValue(st.positions), row.open)
    then [SizedDown(o.stockId, Sized(cfg, st, row), d)]
    else []
  }

  /** An entry order that finds no session and has no retry left. */
  function RetryWarnings(env: Env, d: int, o: Order): seq<Warning> {
    if o.side == Buy && (NextDate(env, env.Series(o.stockId), d).None? || o.attemptsLeft <= 1)
    then [Abandoned(o.stockId, o.signalDate)]
    else []
  }

  function OrderWarnings(env: Env, d: int, st: State, o: Order): seq<Warning> {
    var s := env.Series(o.stockId);
    if d < o.targetDate then []
    else if !Tradable(s, d) then RetryWarnings(env, d, o)
    else if o.side == Buy then OpenWarnings(env.cfg, st, o, d, RowAt(s, d))
    else []
  }

  function OrdersWarnings(env: Env, d: int, st: State, orders: seq<Order>): seq<Warning>
    decreases |orders|
  {
    if orders == [] then []
    else OrderWarnings(env, d, st, orders[0]) + OrdersWarnings(env, d, ExecuteOne(env, d, st, orders[0]), orders[1..])
  }

  /** Only the order phase of a day logs anything. */
  function DayWarnings(env: Env, d: int, st: State): seq<Warning> {
    OrdersWarnings(env, d, st.(pending := []), st.pending)
  }

  function WarningsAfter(env: Env, k: nat): seq<Warning>
    requires k <= |DaysOf(env)|
  {
    if k == 0 then []
    else WarningsAfter(env, k - 1) + DayWarnings(env, DaysOf(env)[k - 1], StateAfter(env, k - 1))
  }

  function CountForced(trades: seq<Trade>): (n: nat)
    ensures n <= |trades|
  {
    if trades == [] then 0
    else CountForced(trades[..|trades| - 1]) + (if trades[|trades| - 1].Forced() then 1 else 0)
  }

  function ForcedLine(count: nat): seq<Warning> {
    if count == 0 then [] else [ForceClosed(count)]
  }

  /** All that the engine logs over a whole run. */
  function EngineLog(env: Env): seq<Warning> {
    WarningsAfter(env, |DaysOf(env)|) + ForcedLine(CountForced(FinalState(env).trades))
  }

  /** What it hands on: `warnings_log[:200]`. */
  function Kept(log: seq<Warning>): seq<Warning> {
    log[..Min(MAX_ENGINE_WARNINGS, |log|)]
  }

  // ---- What the report adds ----

  function CounterOf(r: Rejections, reason: Rejection): nat {
    match reason
    case InsufficientLiquidityOrCash => r.insufficient
    case MaxPositions => r.maxPositions
    case AlreadyOpen => r.alreadyOpen
    case EntryAbandoned => r.abandoned
  }

  function CountFlagged(trades: seq<Trade>): (n: nat)
    ensures n <= |trades|
  {
    if trades == [] then 0
    else CountFlagged(trades[..|trades| - 1]) + (if trades[|trades| - 1].corpFlag then 1 else 0)
  }

  function ExcludedLine(count: nat): seq<Warning> {
    if count == 0 then [] else [TradesExcluded(count)]
  }

  /** One line for each of the first `n` counters that is not zero. */
  function RejectionLines(r: Rejections, n: nat): seq<Warning>
    requires n <= |REJECTIONS|
  {
    if n == 0 then []
    else
      var reason := REJECTIONS[n - 1];
      var count := CounterOf(r, reason);
      RejectionLines(r, n - 1) + (if count == 0 then [] else [SignalsRejected(reason, count)])
  }

  /** The `warnings` field of the stored run. */
  function ReportWarnings(env: Env): seq<Warning> {
    var final := FinalState(env);
    Kept(EngineLog(env)) + ExcludedLine(CountFlagged(final.trades)) + RejectionLines(final.rejections, |REJECTIONS|)
  }

  // ---- Events ----

  /**
   A fill is logged as sized down, with its number of shares, exactly when one share more would still have fitted the
   equity fraction: then the session's liquidity or the cash at hand has cut it short.
   */
  lemma {:induction false} SizedDownExactlyWhen(cfg: Config, st: State, o: Order, d: int, row: Row, n: int)
    ensures !Fillable(cfg, st, row) ==> OpenWarnings(cfg, st, o, d, row) == []
    ensures Fillable(cfg, st, row) && LargestWithin(cfg, st, row, n)
            ==> OpenWarnings(cfg, st, o, d, row)
                == if (n + 1) as real * (row.open * (1.0 + (cfg.cost.spreadPct + cfg.cost.slippagePct) / 100.0))
                      <= (st.cash + MarketValue(st.positions)) * cfg.pf.positionSizePct / 100.0
                   then [SizedDown(o.stockId, n, d)] else []
  {
    hide Sized, SharesBySize, MarketValue, WithinLimits, LargestWithin;
    if Fillable(cfg, st, row) && LargestWithin(cfg, st, row, n) {
      LargestIsSized(cfg, st, row, n);
      SizeInPercent(cfg, st.cash + MarketValue(st.positions), row.open, n + 1);
    }
  }

  predicate IsEvent(w: Warning) {
    w.SizedDown? || w.Abandoned?
  }

  ghost predicate OnlyEvents(log: seq<Warning>) {
    forall w :: w in log ==> IsEvent(w)
  }

  function CountAbandoned(log: seq<Warning>): nat {
    if log == [] then 0
    else CountAbandoned(log[..|log| - 1]) + (if log[|log| - 1].Abandoned? then 1 else 0)
  }

  lemma {:induction false} CountAbandonedConcat(a: seq<Warning>, b: seq<Warning>)
    ensures CountAbandoned(a + b) == CountAbandoned(a) + CountAbandoned(b)
  {
    if b == [] {
      assert a + b == a;
    } else {
      CountAbandonedConcat(a, b[..|b| - 1]);
      assert (a + b)[..|a + b| - 1] == a + b[..|b| - 1];
    }
  }

  lemma {:induction false} OrderLogged(env: Env, d: int, st: State, o: Order)
    ensures ExecuteOne(env, d, st, o).rejections.abandoned
            == st.rejections.abandoned + CountAbandoned(OrderWarnings(env, d, st, o))
    ensures OnlyEvents(OrderWarnings(env, d, st, o))
  {
    hide NextDate, Sized, SharesBySize, FillOf, Proceeds, TradeOf, NewPosition, Fillable, MarketValue;
    if !Tradable(env.Series(o.stockId), d) || o.side == Sell {
      LogOfOne(RetryWarnings(env, d, o));
    } else {
      LogOfOne(OpenWarnings(env.cfg, st, o, d, RowAt(env.Series(o.stockId), d)));
      OpenKeepsAbandoned(env.cfg, st, o, d, RowAt(env.Series(o.stockId), d));
    }
    LogOfOne([]);
    hide Open, OpenWarnings, RetryWarnings, CountAbandoned;
  }

  lemma {:induction false} LogOfOne(log: seq<Warning>)
    requires |log| <= 1
    ensures CountAbandoned(log) == if log != [] && log[0].Abandoned? then 1 else 0
  {
    if log != [] {
      assert log[..0] == [];
    }
  }

  lemma {:induction false} OpenKeepsAbandoned(cfg: Config, st: State, o: Order, d: int, row: Row)
    ensures Open(cfg, st, o, d, row).rejections.abandoned == st.rejections.abandoned
  {
    hide Sized, FillOf;
  }

  lemma {:induction false} OrdersLogged(env: Env, d: int, st: State, orders: seq<Order>)
    ensures ExecuteAll(env, d, st, orders).rejections.abandoned
            == st.rejections.abandoned + CountAbandoned(OrdersWarnings(env, d, st, orders))
    ensures OnlyEvents(OrdersWarnings(env, d, st, orders))
    decreases |orders|
  {
    hide ExecuteOne, OrderWarnings, CountAbandoned, IsEvent;
    if orders == [] {
      LogOfOne([]);
    } else {
      var next := ExecuteOne(env, d, st, orders[0]);
      OrderLogged(env, d, st, orders[0]);
      OrdersLogged(env, d, next, orders[1..]);
      CountAbandonedConcat(OrderWarnings(env, d, st, orders[0]), OrdersWarnings(env, d, next, orders[1..]));
    }
  }

  lemma {:induction false} DayLogged(env: Env, d: int, st: State)
    ensures Day(env, d, st).rejections.abandoned == st.rejections.abandoned + CountAbandoned(DayWarnings(env, d, st))
    ensures OnlyEvents(DayWarnings(env, d, st))
  {
    hide ExecuteAll, ExitAll, SignalAll, OrdersWarnings, CountAbandoned, OnlyEvents;
    OrdersLogged(env, d, st.(pending := []), st.pending);
    var executed := ExecuteOrders(env, d, st);
    ExitsKeepRejections(env, d, IdsOn(Sell, executed.pending), executed.(positions := []), executed.positions);
    var x := DetectExits(env, d, executed);
    SignalsKeepAbandoned(env, d, x, PositionIds(x.positions) + IdsOn(Buy, x.pending), env.universe);
  }

  /** The log holds one abandonment per entry that the counter counts, and nothing but fills and abandonments. */
  lemma {:induction false} AbandonmentsAreLogged(env: Env, k: nat)
    requires k <= |DaysOf(env)|
    ensures CountAbandoned(WarningsAfter(env, k)) == StateAfter(env, k).rejections.abandoned
    ensures OnlyEvents(WarningsAfter(env, k))
  {
    hide Day, StateAfter, DayWarnings, CountAbandoned, DaysOf, IsEvent;
    if k == 0 {
      StateAfterNone(env);
      LogOfOne([]);
    } else {
      AbandonmentsAreLogged(env, k - 1);
      StateAfterNext(env, k - 1);
      var d, st := DaysOf(env)[k - 1], StateAfter(env, k - 1);
      DayLogged(env, d, st);
      CountAbandonedConcat(WarningsAfter(env, k - 1), DayWarnings(env, d, st));
    }
  }

  // ---- What an abandonment names ----

  lemma {:induction false} OrderNamed(env: Env, t: int, d: int, st: State, o: Order, id: int, signalDate: int)
    requires Consecutive(env, t, d) && OrderOk(env, t, o)
    ensures Abandoned(id, signalDate) in OrderWarnings(env, d, st, o)
            <==> Expires(env, d, o) && o.stockId == id && o.signalDate == signalDate
  {
    if o.side == Buy && o.targetDate <= d {
      ExpiresWhen(env, t, d, o);
    }
    hide Consecutive, BuyOk, SellOk, Tradable, NextDate, Sized, SharesBySize, Fillable, MarketValue;
  }

  ghost predicate NamedBy(env: Env, d: int, o: Order, id: int, signalDate: int) {
    Expires(env, d, o) && o.stockId == id && o.signalDate == signalDate
  }

  lemma {:induction false} OrdersNamed(env: Env, t: int, d: int, st: State, orders: seq<Order>, id: int,
                                       signalDate: int)
    requires Consecutive(env, t, d) && OrdersOk(env, t, orders)
    ensures Abandoned(id, signalDate) in OrdersWarnings(env, d, st, orders)
            <==> exists o :: o in orders && NamedBy(env, d, o, id, signalDate)
    decreases |orders|
  {
    hide Consecutive, OrderOk, ExecuteOne, OrderWarnings, Expires;
    if orders != [] {
      OrderNamed(env, t, d, st, orders[0], id, signalDate);
      OrdersNamed(env, t, d, ExecuteOne(env, d, st, orders[0]), orders[1..], id, signalDate);
      assert forall o :: o in orders <==> o == orders[0] || o in orders[1..];
    }
  }

  /** Some order waiting after `i` days expires on the next one, and it was signalled by the stock on that date. */
  ghost predicate ExpiresAfter(env: Env, i: nat, id: int, signalDate: int)
    requires i < |DaysOf(env)|
  {
    exists o :: o in StateAfter(env, i).pending && NamedBy(env, DaysOf(env)[i], o, id, signalDate)
  }

  /** The log names a stock and a signal date as abandoned exactly when an entry order with these has expired. */
  lemma {:induction false} AbandonmentsAreNamed(env: Env, k: nat, id: int, signalDate: int)
    requires k <= |DaysOf(env)|
    ensures Abandoned(id, signalDate) in WarningsAfter(env, k)
            <==> exists i: nat :: i < k && ExpiresAfter(env, i, id, signalDate)
  {
    hide StateAfter, NamedBy, DaysOf, Consecutive, OrdersOk, OrdersWarnings;
    if 0 < k {
      AbandonmentsAreNamed(env, k - 1, id, signalDate);
      var t, d, st := Through(env, DaysOf(env), k - 1), DaysOf(env)[k - 1], StateAfter(env, k - 1);
      OrdersWait(env, k - 1);
      NothingSkipped(env, k - 1);
      OrdersNamed(env, t, d, st.(pending := []), st.pending, id, signalDate);
      assert ExpiresAfter(env, k - 1, id, signalDate)
          <==> Abandoned(id, signalDate) in DayWarnings(env, d, st);
    }
  }

  // ---- The order loop ----

  lemma {:induction false} NextOrder(env: Env, d: int, st: State, orders: seq<Order>, i: nat)
    requires i < |orders|
    ensures var next := ExecuteOne(env, d, st, orders[i]);
            && ExecuteAll(env, d, st, orders[i..]) == ExecuteAll(env, d, next, orders[i + 1..])
            && OrdersWarnings(env, d, st, orders[i..])
               == OrderWarnings(env, d, st, orders[i]) + OrdersWarnings(env, d, next, orders[i + 1..])
  {
    hide ExecuteOne, OrderWarnings;
    assert orders[i..][1..] == orders[i + 1..];
  }

  lemma {:induction false} NoOrderLeft(env: Env, d: int, st: State, orders: seq<Order>)
    ensures ExecuteAll(env, d, st, orders[|orders|..]) == st
    ensures OrdersWarnings(env, d, st, orders[|orders|..]) == []
  {
  }

  lemma {:induction false} Regroup(a: seq<Warning>, b: seq<Warning>, c: seq<Warning>)
    ensures (a + b) + c == a + (b + c)
  {
  }

  // ---- What the engine hands on ----

  /** The trades without a real sale, by their places. */
  ghost function ForcedAmong(trades: seq<Trade>): set<int> {
    set i | 0 <= i < |trades| && (trades[i].reason == ForcedNoFurtherData || trades[i].reason == ForcedAtEnd)
  }

  /** The trades with an implausible return, by their places. */
  ghost function FlaggedAmong(trades: seq<Trade>): set<int> {
    set i | 0 <= i < |trades| && trades[i].corpFlag
  }

  lemma {:induction false} ForcedCounted(trades: seq<Trade>)
    ensures CountForced(trades) == |ForcedAmong(trades)|
  {
    if trades != [] {
      var n := |trades| - 1;
      ForcedCounted(trades[..n]);
      assert ForcedAmong(trades) == ForcedAmong(trades[..n]) + (if trades[n].Forced() then {n} else {});
    }
  }

  lemma {:induction false} FlaggedCounted(trades: seq<Trade>)
    ensures CountFlagged(trades) == |FlaggedAmong(trades)|
  {
    if trades != [] {
      var n := |trades| - 1;
      FlaggedCounted(trades[..n]);
      assert FlaggedAmong(trades) == FlaggedAmong(trades[..n]) + (if trades[n].corpFlag then {n} else {});
    }
  }

  /**
   The engine hands on its whole log exactly when it holds at most 200 lines. Past that the line about forced closes,
   which comes last, is the first one lost.
   */
  lemma {:induction false} LogIsCompleteExactlyWhen(env: Env)
    ensures var log := EngineLog(env);
            && (Kept(log) == log <==> |log| <= 200)
            && (forall n :: ForceClosed(n) in log
                            <==> 0 < n && n == |ForcedAmong(FinalState(env).trades)|)
            && (forall n :: ForceClosed(n) in Kept(log) <==> ForceClosed(n) in log && |log| <= 200)
  {
    ForcedCounted(FinalState(env).trades);
    AbandonmentsAreLogged(env, |DaysOf(env)|);
    hide WarningsAfter, FinalState, CountForced, DaysOf, CountAbandoned, ForcedAmong;
    var events, n := WarningsAfter(env, |DaysOf(env)|), CountForced(FinalState(env).trades);
    KeptWhen(EngineLog(env));
    LastLine(events, n);
  }

  lemma {:induction false} KeptWhen(log: seq<Warning>)
    ensures Kept(log) == log <==> |log| <= MAX_ENGINE_WARNINGS
  {
    assert |log| <= MAX_ENGINE_WARNINGS ==> log[..|log|] == log;
  }

  lemma {:induction false} LastLine(events: seq<Warning>, count: nat)
    requires OnlyEvents(events)
    ensures var log := events + ForcedLine(count);
            && (forall n :: ForceClosed(n) in log <==> 0 < n && n == count)
            && (forall n :: ForceClosed(n) in Kept(log) <==> ForceClosed(n) in log && |log| <= MAX_ENGINE_WARNINGS)
  {
    var log := events + ForcedLine(count);
    assert forall n :: ForceClosed(n) !in events;
    assert 0 < count ==> log[|events|] == ForceClosed(count);
    if |log| <= MAX_ENGINE_WARNINGS {
      KeptWhen(log);
    } else {
      assert Kept(log) == events[..MAX_ENGINE_WARNINGS];
    }
  }

  // ---- What the report says ----

  lemma {:induction false} LinesOf(r: Rejections, n: nat, reason: Rejection, count: nat)
    requires n <= |REJECTIONS|
    ensures SignalsRejected(reason, count) in RejectionLines(r, n)
            <==> reason in REJECTIONS[..n] && 0 < count && count == CounterOf(r, reason)
    ensures forall w :: w in RejectionLines(r, n) ==> w.SignalsRejected?
  {
    hide CounterOf;
    if 0 < n {
      LinesOf(r, n - 1, reason, count);
      assert REJECTIONS[..n] == REJECTIONS[..n - 1] + [REJECTIONS[n - 1]];
    }
  }

  lemma {:induction false} EveryReasonListed(reason: Rejection)
    ensures reason in REJECTIONS[..|REJECTIONS|]
  {
    assert REJECTIONS[0] == InsufficientLiquidityOrCash && REJECTIONS[1] == MaxPositions
           && REJECTIONS[2] == AlreadyOpen && REJECTIONS[3] == EntryAbandoned;
  }

  lemma {:induction false} CounterIs(r: Rejections, reason: Rejection)
    ensures match reason
            case InsufficientLiquidityOrCash => CounterOf(r, reason) == r.insufficient
            case MaxPositions => CounterOf(r, reason) == r.maxPositions
            case AlreadyOpen => CounterOf(r, reason) == r.alreadyOpen
            case EntryAbandoned => CounterOf(r, reason) == r.abandoned
  {
  }

  /** A line of the report for a counter, if it is not zero. */
  function LineFor(reason: Rejection, count: nat): seq<Warning> {
    if count == 0 then [] else [SignalsRejected(reason, count)]
  }

  /**
   The stored warnings in order: at most 200 lines of the log, the number of flagged trades if there are any, then the
   counters for liquidity or cash, for slots, for open positions and for abandoned entries.
   */
  lemma {:induction false} ReportInOrder(env: Env)
    ensures var final, log := FinalState(env), EngineLog(env);
            var flagged := |FlaggedAmong(final.trades)|;
            ReportWarnings(env)
            == log[..if |log| < 200 then |log| else 200]
               + (if flagged == 0 then [] else [TradesExcluded(flagged)])
               + (LineFor(InsufficientLiquidityOrCash, final.rejections.insufficient)
                  + LineFor(MaxPositions, final.rejections.maxPositions)
                  + LineFor(AlreadyOpen, final.rejections.alreadyOpen)
                  + LineFor(EntryAbandoned, final.rejections.abandoned))
  {
    FlaggedCounted(FinalState(env).trades);
    LinesInOrder(FinalState(env).rejections);
    hide FinalState, EngineLog, CountFlagged, FlaggedAmong, LineFor, RejectionLines;
  }

  lemma {:induction false} LinesInOrder(r: Rejections)
    ensures RejectionLines(r, |REJECTIONS|)
            == LineFor(InsufficientLiquidityOrCash, r.insufficient) + LineFor(MaxPositions, r.maxPositions)
               + LineFor(AlreadyOpen, r.alreadyOpen) + LineFor(EntryAbandoned, r.abandoned)
  {
    assert RejectionLines(r, 0) == [];
    assert RejectionLines(r, 1) == LineFor(InsufficientLiquidityOrCash, r.insufficient);
    assert RejectionLines(r, 2) == RejectionLines(r, 1) + LineFor(MaxPositions, r.maxPositions);
    assert RejectionLines(r, 3) == RejectionLines(r, 2) + LineFor(AlreadyOpen, r.alreadyOpen);
    assert RejectionLines(r, 4) == RejectionLines(r, 3) + LineFor(EntryAbandoned, r.abandoned);
  }

  /** Every counter that is not zero has its line in the report, with its count, and there is no other such line. */
  lemma {:induction false} RejectionsAreReported(env: Env, reason: Rejection, count: nat)
    ensures SignalsRejected(reason, count) in ReportWarnings(env)
            <==> 0 < count
                 && var r := FinalState(env).rejections;
                    match reason
                    case InsufficientLiquidityOrCash => count == r.insufficient
                    case MaxPositions => count == r.maxPositions
                    case AlreadyOpen => count == r.alreadyOpen
                    case EntryAbandoned => count == r.abandoned
  {
    CounterIs(FinalState(env).rejections, reason);
    AbandonmentsAreLogged(env, |DaysOf(env)|);
    hide WarningsAfter, FinalState, CountForced, CountFlagged, DaysOf, CountAbandoned, RejectionLines, CounterOf;
    LinesOf(FinalState(env).rejections, |REJECTIONS|, reason, count);
    EveryReasonListed(reason);
    var events := WarningsAfter(env, |DaysOf(env)|);
    NoRejectionIn(events, CountForced(FinalState(env).trades), CountFlagged(FinalState(env).trades));
    hide Kept, ForcedLine, ExcludedLine, OnlyEvents;
  }

  lemma {:induction false} NoRejectionIn(events: seq<Warning>, forced: nat, flagged: nat)
    requires OnlyEvents(events)
    ensures forall w :: w in Kept(events + ForcedLine(forced)) + ExcludedLine(flagged) ==> !w.SignalsRejected?
  {
    assert forall w :: w in Kept(events + ForcedLine(forced)) ==> w in events + ForcedLine(forced);
  }

  /** What the rejection lines of a report add up to. */
  function CountRejected(lines: seq<Warning>): nat {
    if lines == [] then 0
    else
      var w := lines[|lines| - 1];
      CountRejected(lines[..|lines| - 1]) + (if w.SignalsRejected? then w.count else 0)
  }

  lemma {:induction false} CountRejectedConcat(a: seq<Warning>, b: seq<Warning>)
    ensures CountRejected(a + b) == CountRejected(a) + CountRejected(b)
  {
    if b == [] {
      assert a + b == a;
    } else {
      CountRejectedConcat(a, b[..|b| - 1]);
      assert (a + b)[..|a + b| - 1] == a + b[..|b| - 1];
    }
  }

  lemma {:induction false} NothingRejected(log: seq<Warning>)
    requires forall w :: w in log ==> !w.SignalsRejected?
    ensures CountRejected(log) == 0
  {
    if log != [] {
      assert forall w :: w in log[..|log| - 1] ==> w in log;
      assert log[|log| - 1] in log;
      NothingRejected(log[..|log| - 1]);
    }
  }

  function SumCounters(r: Rejections, n: nat): nat
    requires n <= |REJECTIONS|
  {
    if n == 0 then 0 else SumCounters(r, n - 1) + CounterOf(r, REJECTIONS[n - 1])
  }

  lemma {:induction false} LinesAddUp(r: Rejections, n: nat)
    requires n <= |REJECTIONS|
    ensures CountRejected(RejectionLines(r, n)) == SumCounters(r, n)
  {
    hide CounterOf;
    if 0 < n {
      LinesAddUp(r, n - 1);
      var before, reason := RejectionLines(r, n - 1), REJECTIONS[n - 1];
      if CounterOf(r, reason) == 0 {
        assert before + [] == before;
      } else {
        var line := SignalsRejected(reason, CounterOf(r, reason));
        assert (before + [line])[..|before|] == before;
      }
    }
  }

  lemma {:induction false} AllCounters(r: Rejections)
    ensures SumCounters(r, |REJECTIONS|) == r.insufficient + r.maxPositions + r.alreadyOpen + r.abandoned
  {
    assert REJECTIONS[0] == InsufficientLiquidityOrCash && REJECTIONS[1] == MaxPositions
           && REJECTIONS[2] == AlreadyOpen && REJECTIONS[3] == EntryAbandoned;
    assert SumCounters(r, 1) == r.insufficient && SumCounters(r, 2) == r.insufficient + r.maxPositions;
    assert SumCounters(r, 3) == r.insufficient + r.maxPositions + r.alreadyOpen;
  }

  /** The rejection lines of the report add up to the four counters. */
  lemma {:induction false} ReportAddsUp(env: Env)
    ensures var r := FinalState(env).rejections;
            CountRejected(ReportWarnings(env)) == r.insufficient + r.maxPositions + r.alreadyOpen + r.abandoned
  {
    AbandonmentsAreLogged(env, |DaysOf(env)|);
    hide WarningsAfter, FinalState, CountForced, CountFlagged, DaysOf, CountAbandoned, RejectionLines, CountRejected;
    var final := FinalState(env);
    var kept, excluded := Kept(EngineLog(env)), ExcludedLine(CountFlagged(final.trades));
    assert forall w :: w in kept ==> w in EngineLog(env);
    NothingRejected(kept);
    NothingRejected(excluded);
    CountRejectedConcat(kept, excluded);
    CountRejectedConcat(kept + excluded, RejectionLines(final.rejections, |REJECTIONS|));
    LinesAddUp(final.rejections, |REJECTIONS|);
    AllCounters(final.rejections);
  }

  /**
   The rejection lines cover every signal that did not become a trade exactly when no free signal lacked a session and
   no due order met a non-positive open: those two leave no line at all.
   */
  lemma {:induction false} ReportCoversLossesExactlyWhen(env: Env)
    ensures var days, lost := |DaysOf(env)|, SignalsFired(env, |DaysOf(env)|) - |FinalState(env).trades|;
            && lost == CountRejected(ReportWarnings(env)) + SignalsUnfillable(env, days) + OrdersDropped(env, days)
            && (CountRejected(ReportWarnings(env)) == lost
                <==> SignalsUnfillable(env, days) == 0 && OrdersDropped(env, days) == 0)
  {
    hide FinalState, DaysOf, ReportWarnings, CountRejected, SignalsFired, SignalsUnfillable, OrdersDropped;
    SignalsAreAccounted(env);
    OrdersAreAccounted(env);
    ReportAddsUp(env);
  }
}
