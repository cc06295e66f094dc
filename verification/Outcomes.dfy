/** What a complete backtest guarantees about its cash, its trades, its equity curve and its counters. */
module Outcomes {
  import opened Numbers
  import opened MarketData
  import opened Signals
  import opened Engine
  import opened Invariants
  import opened Calendars
  import opened RunProofs
  import opened SweepProofs
  import opened Accounting
  import opened Rules

  /** The state after the last calendar day, before the sweep. */
  function LastState(env: Env): State {
    StateAfter(env, |DaysOf(env)|)
  }

  function FinalState(env: Env): State {
    Sweep(env.cfg, LastState(env))
  }

  function LastDay(env: Env): int {
    Through(env, DaysOf(env), |DaysOf(env)|)
  }

  lemma {:induction false} LastStateOk(env: Env)
    ensures Inv(env, LastDay(env), LastState(env))
  {
    hide Inv;
    RunKeeps(env, |DaysOf(env)|);
  }

  /** The final state keeps the accounts, with nothing left open. */
  lemma {:induction false} FinalStateOk(env: Env)
    ensures var final := FinalState(env);
            && final.positions == []
            && Sweeping(env, LastDay(env), final, [])
            && SameRecords(final, LastState(env))
            && final.cash == Liquidation(env, LastState(env), LastState(env).positions)
  {
    hide Inv, Sweeping, Liquidation, Sweep;
    LastStateOk(env);
    Swept(env, LastDay(env), LastState(env));
  }

  // ---- Orders ----

  /** An entry order never outlives the calendar: its retries end in a fill, a rejection or an abandonment. */
  lemma {:induction false} NoEntryOutlivesTheRun(env: Env)
    ensures forall o :: o in LastState(env).pending ==> o.side == Sell
    ensures CountBuys(LastState(env).pending) == 0
  {
    LastStateOk(env);
    var orders := LastState(env).pending;
    assert OrdersOk(env, LastDay(env), orders);
    hide Inv;
    forall o | o in orders ensures o.side == Sell {
      TargetsAreWithin(env, o);
    }
    NoBuysCounted(orders);
  }

  /** No session of the window lies after the last calendar day. */
  lemma {:induction false} CalendarCovers(env: Env, s: Stock, d: int)
    requires s in env.universe && HasSession(s, d) && InWindow(d, env.startDate, env.endDate)
    ensures d <= LastDay(env)
  {
    var days := DaysOf(env);
    assert d in days;
    var i :| 0 <= i < |days| && days[i] == d;
  }

  lemma {:induction false} TargetsAreWithin(env: Env, o: Order)
    ensures !BuyOk(env, LastDay(env), o)
  {
    hide EntryRule, Quiet;
    var s := env.Series(o.stockId);
    if s in env.universe && HasSession(s, o.targetDate) && InWindow(o.targetDate, env.startDate, env.endDate) {
      CalendarCovers(env, s, o.targetDate);
    }
  }

  lemma {:induction false} NoBuysCounted(orders: seq<Order>)
    requires forall o :: o in orders ==> o.side == Sell
    ensures CountBuys(orders) == 0
  {
    if orders != [] {
      assert forall o :: o in orders[..|orders| - 1] ==> o in orders;
      NoBuysCounted(orders[..|orders| - 1]);
    }
  }

  // ---- Money ----

  /** The raw open of a trade's entry session. */
  function RawEntry(env: Env, tr: Trade): real {
    var s := env.Series(tr.stockId);
    if HasSession(s, tr.entryDate) then RowAt(s, tr.entryDate).open else 0.0
  }

  /** The raw price of a trade's exit: the session's open for a real sale, its close for a synthetic one. */
  function RawExit(env: Env, tr: Trade): real {
    var s := env.Series(tr.stockId);
    if !HasSession(s, tr.exitDate) then 0.0
    else if tr.Forced() then RowAt(s, tr.exitDate).close
    else RowAt(s, tr.exitDate).open
  }

  /** What the shares of a trade gained between the raw prices. */
  function Gain(env: Env, tr: Trade): real {
    tr.shares as real * (RawExit(env, tr) - RawEntry(env, tr))
  }

  /** The fees and adverse moves of one round trip. */
  function Burden(env: Env, tr: Trade): real {
    RoundTripCosts(env.cfg.cost, tr.shares, RawEntry(env, tr), RawExit(env, tr), !tr.Forced())
  }

  function SumGains(env: Env, trades: seq<Trade>): real {
    if trades == [] then 0.0 else SumGains(env, trades[..|trades| - 1]) + Gain(env, trades[|trades| - 1])
  }

  function SumBurdens(env: Env, trades: seq<Trade>): real {
    if trades == [] then 0.0 else SumBurdens(env, trades[..|trades| - 1]) + Burden(env, trades[|trades| - 1])
  }

  function SumReportedNet(trades: seq<Trade>): real {
    if trades == [] then 0.0 else SumReportedNet(trades[..|trades| - 1]) + trades[|trades| - 1].Reported().net
  }

  /** After every number of days, cash plus what the open positions cost is the initial cash plus realised profit. */
  lemma {:induction false} MoneyIsConservedDaily(env: Env, k: nat)
    requires k <= |DaysOf(env)|
    ensures var st := StateAfter(env, k);
            st.cash + SumPaid(st.positions) == env.cfg.pf.initialCash + SumNet(st.trades)
  {
    hide Queue, OrdersOk, PositionsOk, TradesOk, History;
    RunKeeps(env, k);
  }

  /** In the end all of it is cash again. */
  lemma {:induction false} MoneyIsConserved(env: Env)
    ensures FinalState(env).cash == env.cfg.pf.initialCash + SumNet(FinalState(env).trades)
  {
    hide FinalState, Sweepable, FinalTradeOk, History, Liquidation;
    FinalStateOk(env);
  }

  /** The amounts of a trade are those of its shares at the raw prices of its sessions. */
  ghost predicate AtRawPrices(env: Env, tr: Trade) {
    && tr.entryOpen == RawEntry(env, tr)
    && tr.entryExec == RawEntry(env, tr) * (1.0 + (env.cfg.cost.spreadPct + env.cfg.cost.slippagePct) / 100.0)
    && Settled(env.cfg, tr, RawExit(env, tr), !tr.Forced())
  }

  lemma {:induction false} AmountsFollowPrices(env: Env, t: int, tr: Trade)
    requires FinalTradeOk(env, t, tr)
    ensures AtRawPrices(env, tr)
  {
    EntryAtRawPrice(env, t, tr);
    ExitAtRawPrice(env, t, tr);
    hide Settled, FinalTradeOk, RawEntry, RawExit;
  }

  lemma {:induction false} EntryAtRawPrice(env: Env, t: int, tr: Trade)
    requires FinalTradeOk(env, t, tr)
    ensures tr.entryOpen == RawEntry(env, tr)
    ensures tr.entryExec == RawEntry(env, tr) * (1.0 + (env.cfg.cost.spreadPct + env.cfg.cost.slippagePct) / 100.0)
  {
    hide EntryRule, Quiet, ExitFilled, ExitWithoutData, ExitSwept;
    assert TradeEntryOk(env, tr);
  }

  lemma {:induction false} ExitAtRawPrice(env: Env, t: int, tr: Trade)
    requires FinalTradeOk(env, t, tr)
    ensures Settled(env.cfg, tr, RawExit(env, tr), !tr.Forced())
  {
    hide Settled, TradeEntryOk, Quiet, FirstTrigger, NeverTriggered, JumpWithin, FilledAfter;
  }

  lemma {:induction false} NetSplits(env: Env, trades: seq<Trade>)
    requires forall tr :: tr in trades ==> AtRawPrices(env, tr)
    ensures SumNet(trades) == SumGains(env, trades) - SumBurdens(env, trades)
  {
    hide AtRawPrices, Gain, Burden;
    if trades != [] {
      var tr, before := trades[|trades| - 1], trades[..|trades| - 1];
      assert forall x :: x in before ==> x in trades;
      assert tr in trades;
      NetSplits(env, before);
      NetAtRawPrices(env, tr);
    }
  }

  lemma {:induction false} NetAtRawPrices(env: Env, tr: Trade)
    requires AtRawPrices(env, tr)
    ensures tr.net == Gain(env, tr) - Burden(env, tr)
  {
    hide RoundTripCosts, RawEntry, RawExit, Paid, Received;
  }

  /**
   The final cash is the initial cash plus what the shares of all trades gained between the raw prices of their entry
   and exit sessions, less the fees and adverse moves of all round trips.
   */
  lemma {:induction false} CostsExplainTheRest(env: Env)
    ensures var final := FinalState(env);
            final.cash == env.cfg.pf.initialCash + SumGains(env, final.trades) - SumBurdens(env, final.trades)
  {
    hide FinalState, AtRawPrices;
    MoneyIsConserved(env);
    TradesAreSound(env);
    NetSplits(env, FinalState(env).trades);
  }

  lemma {:induction false} RoundingBound(trades: seq<Trade>)
    ensures Abs(SumNet(trades) - SumReportedNet(trades)) <= 0.005 * |trades| as real
  {
    if trades != [] {
      RoundingBound(trades[..|trades| - 1]);
      var net := trades[|trades| - 1].net;
      assert Abs(RoundTo(net, 100.0) - net) * 100.0 <= 0.5;
    }
  }

  /** The rounded profits of the report explain the final cash to half a cent per trade. */
  lemma {:induction false} ReportExplainsFinalCash(env: Env)
    ensures var final := FinalState(env);
            Abs(final.cash - env.cfg.pf.initialCash - SumReportedNet(final.trades)) <= 0.005 * |final.trades| as real
  {
    hide FinalState;
    MoneyIsConserved(env);
    RoundingBound(FinalState(env).trades);
  }

  // ---- Counters ----

  /**
   Every signal that any stock fires on any day of the calendar queues one order, or is turned away because its stock
   is taken or the slots are full, or finds no session to fill it.
   */
  lemma {:induction false} SignalsAreAccounted(env: Env)
    ensures var final, days := FinalState(env), |DaysOf(env)|;
            SignalsFired(env, days) == OrdersQueued(env, days) + final.rejections.alreadyOpen
                                       + final.rejections.maxPositions + SignalsUnfillable(env, days)
  {
    hide FinalState, Sweepable, FinalTradeOk, History, Liquidation, StateAfter;
    FinalStateOk(env);
    CountersCount(env, |DaysOf(env)|);
  }

  /**
   Every queued entry became a trade, was rejected, was abandoned because its sessions ran out, or met a non-positive
   open.
   */
  lemma {:induction false} OrdersAreAccounted(env: Env)
    ensures var final, days := FinalState(env), |DaysOf(env)|;
            OrdersQueued(env, days) == |final.trades| + final.rejections.insufficient + final.rejections.abandoned
                                       + OrdersDropped(env, days)
    ensures FinalState(env).rejections.abandoned == OrdersExpired(env, |DaysOf(env)|)
  {
    NoEntryOutlivesTheRun(env);
    CountersCount(env, |DaysOf(env)|);
    AbandonedAreExpired(env, |DaysOf(env)|);
    hide FinalState, OrdersExpired, Sweepable, FinalTradeOk, History, Liquidation, StateAfter;
    FinalStateOk(env);
  }

  // ---- Trades ----

  /**
   Every trade of the result keeps the entry and exit discipline, has the amounts of its shares at the raw prices of
   its sessions, and comes after the earlier ones of its stock.
   */
  lemma {:induction false} TradesAreSound(env: Env)
    ensures forall tr :: tr in FinalState(env).trades ==> FinalTradeOk(env, LastDay(env), tr) && AtRawPrices(env, tr)
    ensures Sequential(FinalState(env).trades)
  {
    hide FinalState, LastDay, FinalTradeOk, Sweepable, Books, Liquidation, AtRawPrices;
    FinalStateOk(env);
    forall tr | tr in FinalState(env).trades ensures AtRawPrices(env, tr) {
      AmountsFollowPrices(env, LastDay(env), tr);
    }
  }

  /** Signal strictly before entry, entry not after exit, and strictly before it when the exit is a real sale. */
  lemma {:induction false} TradeDatesOrdered(env: Env, t: int, tr: Trade)
    requires FinalTradeOk(env, t, tr)
    ensures env.startDate <= tr.signalDate < tr.entryDate <= tr.exitDate <= t
    ensures !tr.Forced() ==> tr.entryDate < tr.exitDate
  {
    hide EntryRule, ExitRule, JumpWithin, ReasonRule, Settled;
    var s := env.Series(tr.stockId);
    var j, e, x := Index(s, tr.signalDate), Index(s, tr.entryDate), Index(s, tr.exitDate);
    assert s.dates[j] < s.dates[e];
    assert e < x ==> s.dates[e] < s.dates[x];
  }

  /** Round trips in one stock are disjoint in time: the next signal is not before the previous exit. */
  lemma {:induction false} RoundTripsAreDisjoint(env: Env, i: nat, j: nat)
    requires i < j < |FinalState(env).trades|
    requires FinalState(env).trades[i].stockId == FinalState(env).trades[j].stockId
    ensures var a, b := FinalState(env).trades[i], FinalState(env).trades[j];
            a.exitDate <= b.signalDate < b.entryDate
  {
    hide FinalState, LastDay, FinalTradeOk;
    TradesAreSound(env);
    TradeDatesOrdered(env, LastDay(env), FinalState(env).trades[j]);
  }

  /** Some trade of the result, or some entry order waiting after some day, goes back to that stock and date. */
  ghost predicate Signalled(env: Env, id: int, date: int) {
    || (exists tr :: tr in FinalState(env).trades && tr.stockId == id && tr.signalDate == date)
    || (exists k: nat, o :: k <= |DaysOf(env)| && o in StateAfter(env, k).pending && o.side == Buy && o.stockId == id
                            && o.signalDate == date)
  }

  lemma {:induction false} SignalledByRule(env: Env, id: int, date: int)
    requires Signalled(env, id, date)
    ensures EntryRuleOn(env, env.Series(id), date)
  {
    hide FinalState, EntryRule, LastDay, StateAfter, DaysOf, AtRawPrices, History, Books, FinalTradeOk;
    if tr :| tr in FinalState(env).trades && tr.stockId == id && tr.signalDate == date {
      TradesAreSound(env);
      SignalOfTrade(env, LastDay(env), tr);
    } else {
      var k: nat, o :| k <= |DaysOf(env)| && o in StateAfter(env, k).pending && o.side == Buy && o.stockId == id
                       && o.signalDate == date;
      OrdersWait(env, k);
      assert BuyOk(env, Through(env, DaysOf(env), k), o);
    }
  }

  /**
   Every trade and every waiting entry goes back to a session that is not the first of its stock. Under the default
   strategy its RSI was below 35 or its MACD had risen through its signal line since the session before; under the
   strict one both, its volume was at least the ratio times a positive average, and of the stocks with a 50-session
   average on that day at least the threshold closed above theirs.
   */
  lemma {:induction false} EntriesAreCalledFor(env: Env, id: int, date: int)
    requires Signalled(env, id, date)
    ensures HasSession(env.Series(id), date) && 0 < Index(env.Series(id), date)
    ensures var s, pf := env.Series(id), env.cfg.pf;
            var row, prev := s.rows[Index(s, date)], s.rows[Index(s, date) - 1];
            var oversold := row.rsi14.Some? && row.rsi14.value < 35.0;
            var cross := && prev.macd.Some? && prev.macdSignal.Some? && row.macd.Some? && row.macdSignal.Some?
                         && prev.macd.value <= prev.macdSignal.value && row.macdSignal.value < row.macd.value;
            var above, known := AboveAverage(env.universe, date), WithAverage(env.universe, date);
            && (pf.strategy == RsiMacdV1 ==> oversold || cross)
            && (pf.strategy == StrictResearchV1 ==>
                  && oversold && cross
                  && row.volumeSma20.Some? && 0.0 < row.volumeSma20.value
                  && row.volumeSma20.value * pf.volumeConfirmationRatio <= row.volume as real
                  && pf.breadthThreshold <= if known == {} then 0.0 else |above| as real / |known| as real)
  {
    hide Signalled, AboveAverage, WithAverage;
    SignalledByRule(env, id, date);
  }

  lemma {:induction false} SignalOfTrade(env: Env, t: int, tr: Trade)
    requires FinalTradeOk(env, t, tr)
    ensures EntryRuleOn(env, env.Series(tr.stockId), tr.signalDate)
  {
    hide EntryRule, ExitFilled, ExitWithoutData, ExitSwept;
  }

  /** No session without volume. */
  ghost predicate AlwaysTrades(s: Stock) {
    forall k :: 0 <= k < |s.rows| ==> 0 < s.rows[k].volume
  }

  /** The holding period cannot run past `hold_days` sessions without triggering. */
  lemma {:induction false} TriggerWithinHold(env: Env, s: Stock, entry: nat, entryExec: real, k: nat)
    requires FirstTrigger(env, s, entry, entryExec, k)
    ensures k - entry <= Max(0, env.cfg.pf.holdDays)
  {
    if k - entry > Max(0, env.cfg.pf.holdDays) {
      assert ExitRule(env.cfg.pf, s, entry, entryExec, entry + Max(0, env.cfg.pf.holdDays));
    }
  }

  /**
   A real sale comes after a trigger at most `hold_days` sessions past the entry; in a stock that trades every session
   it is the very next session, so at most `hold_days` + 1 sessions past the entry.
   */
  lemma {:induction false} SaleFollowsTrigger(env: Env, t: int, tr: Trade)
    requires FinalTradeOk(env, t, tr) && !tr.Forced()
    ensures var s := env.Series(tr.stockId);
            && HasSession(s, tr.entryDate) && HasSession(s, tr.exitDate)
            && exists k: nat :: FilledAfter(env, s, tr, k)
                                && k - Index(s, tr.entryDate) <= Max(0, env.cfg.pf.holdDays)
                                && (AlwaysTrades(s) ==> Index(s, tr.exitDate) == k + 1)
    ensures var s := env.Series(tr.stockId);
            AlwaysTrades(s) ==> Index(s, tr.exitDate) - Index(s, tr.entryDate) <= Max(0, env.cfg.pf.holdDays) + 1
  {
    hide EntryRule, ExitRule, EntryOk, JumpWithin, ReasonRule, Settled;
    var s := env.Series(tr.stockId);
    var k: nat :| FilledAfter(env, s, tr, k);
    assert AlwaysTrades(s) ==> 0 < s.rows[k + 1].volume;
    TriggerWithinHold(env, s, Index(s, tr.entryDate), tr.entryExec, k);
  }

  /**
   The reason of a sale tells what happened to the prices: `StopLoss` that on the trigger session the low, or the close
   if the low is zero, was at most the entry price less the stop; `TargetReached` that the close was at least the entry
   price plus the target and the stop was not touched; `HoldDays` that the full holding period went by without either
   on any session from the entry on.
   */
  lemma {:induction false} ReasonTellsWhy(env: Env, s: Stock, tr: Trade, k: nat)
    requires HasSession(s, tr.entryDate) && HasSession(s, tr.exitDate) && FilledAfter(env, s, tr, k)
    ensures var pf, row := env.cfg.pf, s.rows[k];
            && (tr.reason == StopLoss
                <==> pf.stopLossPct.Some?
                     && (if row.low == 0.0 then row.close else row.low)
                        <= tr.entryExec * (100.0 - pf.stopLossPct.value) / 100.0)
            && (tr.reason == TargetReached
                <==> row.close >= tr.entryExec * (100.0 + pf.targetReturnPct) / 100.0 && tr.reason != StopLoss)
            && (tr.reason == HoldDays <==> tr.reason != StopLoss && tr.reason != TargetReached)
    ensures tr.reason == HoldDays ==>
              && k - Index(s, tr.entryDate) == Max(0, env.cfg.pf.holdDays)
              && forall j :: Index(s, tr.entryDate) <= j <= k
                             ==> !StopRule(env.cfg.pf, s.rows[j], tr.entryExec)
                                 && !TargetRule(env.cfg.pf, s.rows[j], tr.entryExec)
  {
    ReasonInPrices(env.cfg.pf, s.rows[k], tr.entryExec, tr.reason);
    hide StopRule, TargetRule, JumpWithin, Quiet;
    var entry := Index(s, tr.entryDate);
    TriggerWithinHold(env, s, entry, tr.entryExec, k);
    if tr.reason == HoldDays {
      forall j | entry <= j <= k
        ensures !StopRule(env.cfg.pf, s.rows[j], tr.entryExec) && !TargetRule(env.cfg.pf, s.rows[j], tr.entryExec)
      {
        assert j < k ==> !ExitRule(env.cfg.pf, s, entry, tr.entryExec, j);
      }
    }
  }

  lemma {:induction false} ReasonInPrices(pf: PortfolioConfig, row: Row, entryExec: real, reason: Reason)
    requires ReasonRule(pf, row, entryExec, reason)
    ensures reason == StopLoss
            <==> pf.stopLossPct.Some?
                 && (if row.low == 0.0 then row.close else row.low)
                    <= entryExec * (100.0 - pf.stopLossPct.value) / 100.0
    ensures reason == TargetReached
            <==> row.close >= entryExec * (100.0 + pf.targetReturnPct) / 100.0 && reason != StopLoss
    ensures reason == HoldDays <==> reason != StopLoss && reason != TargetReached
  {
  }

  /** A session on which a trade is watched for implausible returns: up to the exit trigger, and the exit itself. */
  ghost predicate Watched(env: Env, s: Stock, entry: nat, exit: nat, entryExec: real, m: nat) {
    && entry <= m <= exit
    && (m == exit || forall j :: entry <= j < m && j < |s.rows| ==> !ExitRule(env.cfg.pf, s, entry, entryExec, j))
  }

  /**
   A trade is flagged exactly when an implausible return shows on a watched session: the entry, the exit, or any
   session in between that no exit trigger precedes.
   */
  lemma {:induction false} FlaggedExactlyWhen(env: Env, t: int, tr: Trade)
    requires FinalTradeOk(env, t, tr)
    ensures var s := env.Series(tr.stockId);
            && HasSession(s, tr.entryDate) && HasSession(s, tr.exitDate)
            && var entry, exit := Index(s, tr.entryDate), Index(s, tr.exitDate);
               tr.corpFlag <==> exists m: nat :: m < |s.rows| && Implausible(s.rows[m])
                                                 && Watched(env, s, entry, exit, tr.entryExec, m)
  {
    hide EntryOk, Settled, ExitRule, ReasonRule, Quiet, Implausible;
    var s := env.Series(tr.stockId);
    var e, x := Index(s, tr.entryDate), Index(s, tr.exitDate);
    if tr.Forced() {
      assert tr.corpFlag <==> JumpWithin(s, e, x);
      assert forall m :: e <= m <= x ==> NeverTriggered(env, s, e, tr.entryExec, m) by {
        hide JumpWithin;
      }
    } else {
      var k: nat :| FilledAfter(env, s, tr, k);
      assert forall m :: e <= m < x ==> (NeverTriggered(env, s, e, tr.entryExec, m) <==> m <= k);
      assert e <= k;
    }
  }

  /** A trade whose entry or exit session shows an implausible return is flagged. */
  lemma {:induction false} JumpAtEitherEndIsFlagged(env: Env, t: int, tr: Trade)
    requires FinalTradeOk(env, t, tr)
    ensures var s := env.Series(tr.stockId);
            && HasSession(s, tr.entryDate) && HasSession(s, tr.exitDate)
            && (Implausible(RowAt(s, tr.entryDate)) || Implausible(RowAt(s, tr.exitDate)) ==> tr.corpFlag)
  {
    hide EntryRule, ExitRule, ReasonRule, EntryOk, Settled, Implausible;
    var s := env.Series(tr.stockId);
    var e, x := Index(s, tr.entryDate), Index(s, tr.exitDate);
    if Implausible(s.rows[e]) {
      assert forall k :: e <= k ==> JumpWithin(s, e, k);
    }
    if Implausible(s.rows[x]) && e <= x {
      assert JumpWithin(s, e, x);
    }
  }
}
