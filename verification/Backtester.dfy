/** The backtester itself: mutable account, book and order queue, one method per phase of the day. */
module Backtester {
  import opened Numbers
  import opened MarketData
  import opened Signals
  import opened Engine
  import opened Invariants
  import opened Fills
  import opened Rules
  import opened PhaseRules
  import opened Accounting
  import opened Calendars
  import opened RunProofs
  import opened Outcomes
  import opened EquityCurve
  import opened Reporting

  class PortfolioBacktester {
    const env: Env
    var cash: real
    var positions: seq<Position>
    var pending: seq<Order>
    var trades: seq<Trade>
    var rejections: Rejections
    var curve: seq<EquityPoint>
    var breadthByDate: map<int, real>
    /** The events logged so far. */
    var warnings: seq<Warning>
    ghost var audit: Audit

    ghost function Now(): State
      reads this
    {
      State(cash, positions, pending, trades, rejections, curve, audit)
    }

    function BreadthOn(d: int): real
      reads this
    {
      if d in breadthByDate then breadthByDate[d] else 0.0
    }

    constructor (env: Env)
      ensures this.env == env && Now() == Initial(env)
      ensures breadthByDate == map[] && warnings == []
    {
      this.env := env;
      warnings := [];
      cash := env.cfg.pf.initialCash;
      positions, pending, trades, curve := [], [], [], [];
      rejections := Rejections(0, 0, 0, 0);
      breadthByDate := map[];
      audit := Audit(0, 0, 0, 0, 0);
    }

    /** Market breadth of one day: the share of the universe closing above its 50-session average. */
    method MeasureBreadth(d: int) returns (breadth: real)
      requires env.cfg.Strict()
      ensures breadth == Breadth(env, d)
      ensures breadth == if WithAverage(env.universe, d) == {} then 0.0
                         else |AboveAverage(env.universe, d)| as real / |WithAverage(env.universe, d)| as real
    {
      BreadthIsShare(env, d);
      var above, known := 0, 0;
      for i := 0 to |env.universe|
        invariant above <= known && (above, known) == BreadthTally(env.universe[..i], d)
      {
        assert env.universe[..i + 1][..i] == env.universe[..i];
        above, known := CountStock(env.universe[i], d, above, known);
      }
      assert env.universe[..|env.universe|] == env.universe;
      breadth := if known == 0 then 0.0 else above as real / known as real;
    }

    static method CountStock(s: Stock, d: int, above: nat, known: nat) returns (above': nat, known': nat)
      requires above <= known
      ensures (above', known') == TallyStock(s, d, above, known)
    {
      above', known' := above, known;
      if HasSession(s, d) && RowAt(s, d).sma50.Some? {
        known' := known + 1;
        if RowAt(s, d).close > RowAt(s, d).sma50.value {
          above' := above + 1;
        }
      }
    }

    method MeasureAllBreadth(calendar: seq<int>)
      requires breadthByDate == map[]
      modifies this`breadthByDate
      ensures forall d :: d in calendar ==> BreadthOn(d) == Breadth(env, d)
    {
      if env.cfg.Strict() {
        for i := 0 to |calendar|
          invariant forall j :: 0 <= j < i ==> BreadthOn(calendar[j]) == Breadth(env, calendar[j])
        {
          var breadth := MeasureBreadth(calendar[i]);
          breadthByDate := breadthByDate[calendar[i] := breadth];
        }
      }
    }

    /** Fills one entry order at today's open if size, liquidity and cash allow it. */
    method OpenPosition(o: Order, d: int, row: Row) returns (filled: bool)
      modifies this`cash, this`positions, this`rejections, this`audit, this`warnings
      ensures warnings == old(warnings) + OpenWarnings(env.cfg, old(Now()), o, d, row)
      ensures Now() == Open(env.cfg, old(Now()), o, d, row)
      ensures filled <==> Fillable(env.cfg, old(Now()), row)
      ensures filled ==> cash == old(cash) - Paid(env.cfg.cost, Sized(env.cfg, old(Now()), row), row.open)
      ensures EnteredByRule(env.cfg, old(Now()), o, d, row, Now())
    {
      EntriesByRule(env.cfg, Now(), o, d, row);
      OpenOutcome(env.cfg, Now(), o, d, row);
      if row.open > 0.0 {
        FillableSize(env.cfg, Now(), row);
        FillByRule(env.cfg, Sized(env.cfg, Now(), row), row.open);
      }
      hide EnteredByRule, Fillable, Paid;
      if row.open <= 0.0 {
        audit := audit.(droppedAtOpen := audit.droppedAtOpen + 1);
        return false;
      }
      if env.cfg.Strict() && row.high <= row.low {
        rejections := rejections.(insufficient := rejections.insufficient + 1);
        return false;
      }
      var equity := cash + MarketValue(positions);
      var bySize := SharesBySize(env.cfg, equity, row.open);
      var byLiquidity := SharesByLiquidity(env.cfg, row.volume);
      var byCash := SharesByCash(env.cfg, cash, row.open);
      var shares := Max(0, Min(Min(bySize, byLiquidity), byCash));
      hide SharesBySize, SharesByLiquidity, SharesByCash, FillOf;
      if row.volume < env.cfg.cost.minLiquidityShares || shares < 1 {
        rejections := rejections.(insufficient := rejections.insufficient + 1);
        return false;
      }
      if shares < bySize {
        warnings := warnings + [SizedDown(o.stockId, shares, d)];
      }
      var fill := FillOf(env.cfg, shares, row.open);
      // Here the source compares the amount with the cash once more; after the floors above it always fits.
      assert fill.cashOut <= cash;
      cash := cash - fill.cashOut;
      positions := Put(positions, NewPosition(o, d, row, fill));
      audit := audit.(entered := audit.entered + 1);
      return true;
    }

    /** Books the proceeds of a position that has left the book. */
    method ClosePosition(p: Position, d: int, price: real, applyCosts: bool, reason: Reason, corpFlag: bool)
      modifies this`cash, this`trades
      ensures Now() == Close(env.cfg, old(Now()), p, d, price, applyCosts, reason, corpFlag)
      ensures PaidOk(env.cfg, p) ==> trades[|trades| - 1].net == trades[|trades| - 1].gross - trades[|trades| - 1].costs
      ensures cash == old(cash) + p.cashPaid + trades[|trades| - 1].net
      ensures SoldByRule(env.cfg.cost, old(Now()), p, d, price, applyCosts, reason, corpFlag, Now())
    {
      ClosedByRule(env.cfg, Now(), p, d, price, applyCosts, reason, corpFlag);
      var received := Proceeds(env.cfg, p, price, applyCosts);
      var trade := TradeOf(env.cfg, p, d, price, applyCosts, reason, corpFlag);
      if PaidOk(env.cfg, p) {
        TradeSettles(env.cfg, p, d, price, applyCosts, reason, corpFlag);
      }
      assert trade.net == received - p.cashPaid;
      hide Proceeds, TradeOf, PaidOk, SoldByRule;
      cash := cash + received;
      trades := trades + [trade];
    }

    /** An order whose session does not trade. */
    method RetryOrder(o: Order, d: int)
      modifies this`pending, this`rejections, this`warnings
      ensures warnings == old(warnings) + RetryWarnings(env, d, o)
      ensures Now() == Retry(env, d, old(Now()), o)
      ensures RetriedByRule(env, d, old(Now()), o, Now())
    {
      RetriesByRule(env, d, Now(), o);
      hide RetriedByRule;
      var next := NextDate(env, env.Series(o.stockId), d);
      var waiting := o.(attemptsLeft := o.attemptsLeft - 1);
      if next.Some? && waiting.attemptsLeft > 0 {
        pending := pending + [waiting.(targetDate := next.value)];
      } else if o.side == Buy {
        rejections := rejections.(abandoned := rejections.abandoned + 1);
        warnings := warnings + [Abandoned(o.stockId, o.signalDate)];
      } else {
        pending := pending + [waiting];
      }
    }

    /** A due exit order whose session trades. */
    method SellPosition(o: Order, d: int, row: Row)
      modifies this`cash, this`positions, this`trades
      ensures Now() == FillSell(env, d, old(Now()), o, row)
      ensures SaleByRule(env.cfg.cost, old(Now()), o, d, row, Now())
    {
      SalesByRule(env, d, Now(), o, row);
      hide Close, ReturnJump, SaleByRule, SoldByRule;
      var held := Find(positions, o.stockId);
      if held.Some? {
        positions := Without(positions, o.stockId);
        ClosePosition(held.value, d, row.open, true, o.reason, ReturnJump(row));
      }
    }

    /** One due order of phase 1. */
    method ExecuteOrder(o: Order, d: int)
      modifies this
      ensures breadthByDate == old(breadthByDate)
      ensures warnings == old(warnings) + OrderWarnings(env, d, old(Now()), o)
      ensures Now() == ExecuteOne(env, d, old(Now()), o)
      ensures ExecutedByRule(env, d, old(Now()), o, Now())
    {
      ExecutesByRule(env, d, Now(), o);
      hide ExecutedByRule, RetriedByRule, EnteredByRule, SaleByRule, Open, Retry, FillSell, Fillable, FillOf,
           OpenWarnings, RetryWarnings;
      var s := env.Series(o.stockId);
      if d < o.targetDate {
        pending := pending + [o];
      } else if !HasSession(s, d) || RowAt(s, d).volume <= 0 {
        RetryOrder(o, d);
      } else if o.side == Buy {
        var _ := OpenPosition(o, d, RowAt(s, d));
      } else {
        SellPosition(o, d, RowAt(s, d));
      }
    }

    /** Phase 1: execute or retry the orders due today; `pending` is rebuilt from the orders that stay. */
    method ExecutePending(d: int)
      modifies this
      ensures breadthByDate == old(breadthByDate)
      ensures warnings == old(warnings) + DayWarnings(env, d, old(Now()))
      ensures Now() == ExecuteOrders(env, d, old(Now()))
    {
      hide ExecuteAll, OrdersWarnings, ExecuteOne, OrderWarnings, ExecutedByRule;
      var orders := pending;
      pending := [];
      assert orders[0..] == orders;
      for i := 0 to |orders|
        invariant breadthByDate == old(breadthByDate)
        invariant ExecuteAll(env, d, Now(), orders[i..]) == ExecuteOrders(env, d, old(Now()))
        invariant warnings + OrdersWarnings(env, d, Now(), orders[i..])
                  == old(warnings) + DayWarnings(env, d, old(Now()))
      {
        NextOrder(env, d, Now(), orders, i);
        ghost var logged, st := warnings, Now();
        ExecuteOrder(orders[i], d);
        Regroup(logged, OrderWarnings(env, d, st, orders[i]), OrdersWarnings(env, d, Now(), orders[i + 1..]));
      }
      NoOrderLeft(env, d, Now(), orders);
    }

    /** One held position of phase 2. */
    method ScanPosition(p: Position, d: int, selling: set<int>)
      modifies this
      ensures breadthByDate == old(breadthByDate) && warnings == old(warnings)
      ensures Now() == ExitOne(env, d, selling, old(Now()), p)
      ensures ScannedByRule(env, d, selling, old(Now()), p, Now())
    {
      ScansByRule(env, d, selling, Now(), p);
      hide Close, TargetHit, StopHit, ScannedByRule, SoldByRule;
      var s := env.Series(p.stockId);
      if p.stockId in selling || !HasSession(s, d) {
        positions := positions + [p];
        return;
      }
      var row := RowAt(s, d);
      var q := Refreshed(p, d, row);
      var sessionsHeld := if HasSession(s, p.entryDate) then Index(s, d) - Index(s, p.entryDate) else 0;
      var targetHit := TargetHit(env.cfg, row, p.entryExec);
      var stopHit := StopHit(env.cfg, row, p.entryExec);
      if targetHit || stopHit || sessionsHeld >= env.cfg.pf.holdDays {
        var next := NextDate(env, s, d);
        if next.None? {
          ClosePosition(q, d, row.close, false, ForcedNoFurtherData, q.corpFlag);
        } else {
          positions := positions + [q];
          var reason := if stopHit then StopLoss else if targetHit then TargetReached else HoldDays;
          pending := pending + [Order(p.stockId, Sell, d, next.value, EXIT_RETRY_SESSIONS, reason)];
        }
      } else {
        positions := positions + [q];
      }
    }

    /** Phase 2: mark every position with a session today and order the exits that trigger. */
    method ScanExits(d: int)
      modifies this
      ensures breadthByDate == old(breadthByDate) && warnings == old(warnings)
      ensures Now() == DetectExits(env, d, old(Now()))
      ensures ExitsByRule(env, d, IdsOn(Sell, old(pending)), old(positions), old(Now()).(positions := []), Now())
    {
      AllScanned(env, d, IdsOn(Sell, pending), Now().(positions := []), positions);
      hide ExitsByRule, ScannedByRule;
      var selling := IdsOn(Sell, pending);
      var held := positions;
      positions := [];
      for i := 0 to |held|
        invariant breadthByDate == old(breadthByDate) && warnings == old(warnings)
        invariant ExitAll(env, d, selling, Now(), held[i..]) == DetectExits(env, d, old(Now()))
      {
        hide ExitOne;
        assert held[i..][1..] == held[i + 1..];
        ScanPosition(held[i], d, selling);
      }
    }

    /** One stock of phase 3. */
    method HearStock(s: Stock, d: int, busy: set<int>) returns (busy': set<int>)
      requires BreadthOn(d) == Breadth(env, d)
      modifies this`pending, this`rejections, this`audit
      ensures (Now(), busy') == SignalOne(env, d, old(Now()), busy, s)
      ensures HeardByRule(env, d, old(Now()), busy, s, Now(), busy')
    {
      HearsByRule(env, d, Now(), busy, s);
      hide HeardByRule;
      busy' := busy;
      var fires := HasSession(s, d) && 0 < Index(s, d)
                   && SignalAt(RowAt(s, d), Some(s.rows[Index(s, d) - 1]), env.cfg.pf.strategy,
                               BreadthOn(d) >= env.cfg.pf.breadthThreshold, env.cfg.pf.volumeConfirmationRatio);
      assert fires == FiresOn(env, s, d);
      hide FiresOn, SignalAt;
      if fires {
        audit := audit.(fired := audit.fired + 1);
        if s.id in busy {
          rejections := rejections.(alreadyOpen := rejections.alreadyOpen + 1);
        } else if |positions| + CountBuys(pending) >= env.cfg.pf.maxPositions {
          rejections := rejections.(maxPositions := rejections.maxPositions + 1);
        } else {
          var next := NextDate(env, s, d);
          if next.Some? {
            pending := pending + [Order(s.id, Buy, d, next.value, ENTRY_RETRY_SESSIONS, NoReason)];
            busy' := busy + {s.id};
            audit := audit.(scheduled := audit.scheduled + 1);
          } else {
            audit := audit.(noNextSession := audit.noNextSession + 1);
          }
        }
      }
    }

    /** Phase 3: queue an entry for every fresh signal that finds its stock free and a slot open. */
    method ScanSignals(d: int)
      requires BreadthOn(d) == Breadth(env, d)
      modifies this`pending, this`rejections, this`audit
      ensures Now() == DetectSignals(env, d, old(Now()))
      ensures SignalsByRule(env, d, old(Now()), Now())
    {
      PhaseHeard(env, d, Now());
      hide SignalOne, Breadth, HeardByRule, SignalsByRule;
      var busy := PositionIds(positions) + IdsOn(Buy, pending);
      for i := 0 to |env.universe|
        invariant SignalAll(env, d, Now(), busy, env.universe[i..]) == DetectSignals(env, d, old(Now()))
      {
        assert env.universe[i..][1..] == env.universe[i + 1..];
        busy := HearStock(env.universe[i], d, busy);
      }
    }

    /** Phase 4: record today's point of the equity curve. */
    method RecordEquity(d: int)
      modifies this`curve
      ensures Now() == MarkToMarket(d, old(Now()))
      ensures |curve| == |old(curve)| + 1 && curve[..|old(curve)|] == old(curve)
      ensures PointShows(d, old(Now()), curve[|old(curve)|])
    {
      PointIs(d, Now());
      hide PointShows;
      curve := curve + [PointOf(d, State(cash, positions, pending, trades, rejections, curve,
                                         Audit(0, 0, 0, 0, 0)))];
    }

    /** The final sweep: positions with a waiting exit order first, then the rest. */
    method ForceCloseAll()
      modifies this
      ensures warnings == old(warnings)
      ensures Now() == Sweep(env.cfg, old(Now()))
    {
      var orders := pending;
      for i := 0 to |orders|
        invariant pending == orders && warnings == old(warnings)
        invariant CloseOrdered(env.cfg, Now(), orders[i..]) == CloseOrdered(env.cfg, old(Now()), orders)
      {
        hide Close;
        assert orders[i..][1..] == orders[i + 1..];
        var held := Find(positions, orders[i].stockId);
        if orders[i].side == Sell && held.Some? {
          positions := Without(positions, orders[i].stockId);
          ClosePosition(held.value, held.value.lastDate, held.value.lastPrice, false, ForcedAtEnd,
                        held.value.corpFlag);
        }
      }
      var left := positions;
      for i := 0 to |left|
        invariant positions == left && warnings == old(warnings)
        invariant CloseRest(env.cfg, Now(), left[i..]) == Sweep(env.cfg, old(Now()))
      {
        hide Close;
        assert left[i..][1..] == left[i + 1..];
        ClosePosition(left[i], left[i].lastDate, left[i].lastPrice, false, ForcedAtEnd, left[i].corpFlag);
      }
      positions := [];
    }

    /** The four phases of one day. */
    method RunDay(d: int)
      requires BreadthOn(d) == Breadth(env, d)
      modifies this
      ensures breadthByDate == old(breadthByDate)
      ensures warnings == old(warnings) + DayWarnings(env, d, old(Now()))
      ensures Now() == Day(env, d, old(Now()))
    {
      hide ExecuteOrders, DetectExits, DetectSignals, MarkToMarket, Breadth, DayWarnings;
      ExecutePending(d);
      ScanExits(d);
      ScanSignals(d);
      RecordEquity(d);
    }

    /** All days of the calendar, then the sweep. */
    method Run(calendar: seq<int>)
      requires calendar == DaysOf(env) && Now() == Initial(env) && breadthByDate == map[] && warnings == []
      modifies this
      ensures warnings == WarningsAfter(env, |calendar|)
      ensures Now() == FinalState(env)
    {
      hide DayWarnings, Day, DaysOf, StateAfter, Breadth, Sweep, Initial;
      MeasureAllBreadth(calendar);
      StateAfterNone(env);
      for i := 0 to |calendar|
        invariant Now() == StateAfter(env, i) && warnings == WarningsAfter(env, i)
        invariant forall d :: d in calendar ==> BreadthOn(d) == Breadth(env, d)
      {
        StateAfterNext(env, i);
        RunDay(calendar[i]);
      }
      ForceCloseAll();
    }
  }
}
