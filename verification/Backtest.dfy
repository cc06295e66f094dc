/** A backtest from the loaded universe to its report. */
module Backtest {
  import opened Numbers
  import opened MarketData
  import opened Engine
  import opened Invariants
  import opened Calendars
  import opened Outcomes
  import opened EquityCurve
  import opened Reporting
  import opened Backtester

  datatype RunResult =
    | InvalidRange
    | NoHistory
    | Completed(trades: seq<Trade>, curve: seq<EquityPoint>, initialCash: real, finalCash: real,
                rejections: Rejections, warnings: seq<Warning>, dataStart: int, dataEnd: int, stocksTested: nat)

  function ReportedAll(trades: seq<Trade>): (r: seq<Trade>)
    ensures |r| == |trades|
  {
    seq(|trades|, i requires 0 <= i < |trades| => trades[i].Reported())
  }

  lemma {:induction false} ReportedSum(trades: seq<Trade>)
    ensures SumNet(ReportedAll(trades)) == SumReportedNet(trades)
  {
    if trades != [] {
      ReportedSum(trades[..|trades| - 1]);
      assert ReportedAll(trades)[..|trades| - 1] == ReportedAll(trades[..|trades| - 1]);
    }
  }

  /** Leaving out the stocks without a session in the window does not change the calendar. */
  lemma {:induction false} CalendarOfEligible(universe: seq<Stock>, lo: int, hi: int)
    ensures Calendar(Eligible(universe, lo, hi), lo, hi) == Calendar(universe, lo, hi)
  {
    var a, b := Calendar(Eligible(universe, lo, hi), lo, hi), Calendar(universe, lo, hi);
    forall x ensures x in a <==> x in b {
      if s :| s in universe && x in s.dates && InWindow(x, lo, hi) {
        assert s in Eligible(universe, lo, hi);
      }
    }
    SortedUnique(a, b);
  }

  lemma {:induction false} CalendarNonEmpty(universe: seq<Stock>, lo: int, hi: int)
    ensures Calendar(universe, lo, hi) != [] <==> Eligible(universe, lo, hi) != []
  {
    var cal, some := Calendar(universe, lo, hi), Eligible(universe, lo, hi);
    if cal != [] {
      assert cal[0] in cal;
      var s :| s in universe && cal[0] in s.dates && InWindow(cal[0], lo, hi);
      assert s in some;
    }
    if some != [] {
      assert some[0] in some;
      var d :| d in some[0].dates && InWindow(d, lo, hi);
      assert d in cal;
    }
  }

  /** Adds one stock's window dates to the calendar and says whether it has any. */
  method CollectWindow(s: Stock, before: seq<int>, lo: int, hi: int) returns (calendar: seq<int>, any: bool)
    ensures calendar == InsertWindow(before, s.dates, lo, hi)
    ensures any <==> HasWindowDate(s, lo, hi)
  {
    hide InsertDate, HasWindowDate, InWindow;
    calendar, any := before, false;
    for j := 0 to |s.dates|
      invariant calendar == InsertWindow(before, s.dates[..j], lo, hi)
      invariant any <==> exists k :: 0 <= k < j && InWindow(s.dates[k], lo, hi)
    {
      assert s.dates[..j + 1][..j] == s.dates[..j];
      if InWindow(s.dates[j], lo, hi) {
        calendar, any := InsertDate(calendar, s.dates[j]), true;
      }
    }
    assert s.dates[..|s.dates|] == s.dates;
    WindowByIndex(s, lo, hi);
  }

  lemma {:induction false} WindowByIndex(s: Stock, lo: int, hi: int)
    ensures HasWindowDate(s, lo, hi) <==> exists k :: 0 <= k < |s.dates| && InWindow(s.dates[k], lo, hi)
  {
  }

  /** The sorted union of the window dates, and the stocks that have any. */
  method SelectUniverse(universe: seq<Stock>, lo: int, hi: int) returns (eligible: seq<Stock>, calendar: seq<int>)
    ensures eligible == Eligible(universe, lo, hi)
    ensures calendar == Calendar(universe, lo, hi)
  {
    hide HasWindowDate, InsertWindow;
    eligible, calendar := [], [];
    for i := 0 to |universe|
      invariant calendar == Calendar(universe[..i], lo, hi)
      invariant eligible + Eligible(universe[i..], lo, hi) == Eligible(universe, lo, hi)
    {
      assert universe[..i + 1][..i] == universe[..i];
      assert universe[i..][1..] == universe[i + 1..];
      var any;
      calendar, any := CollectWindow(universe[i], calendar, lo, hi);
      if any {
        assert (eligible + [universe[i]]) + Eligible(universe[i + 1..], lo, hi)
            == eligible + ([universe[i]] + Eligible(universe[i + 1..], lo, hi));
        eligible := eligible + [universe[i]];
      }
    }
    assert universe[..|universe|] == universe;
  }

  method CountForcedCloses(trades: seq<Trade>) returns (n: nat)
    ensures n == CountForced(trades)
  {
    n := 0;
    for i := 0 to |trades|
      invariant n == CountForced(trades[..i])
    {
      assert trades[..i + 1][..i] == trades[..i];
      if trades[i].Forced() {
        n := n + 1;
      }
    }
    assert trades[..|trades|] == trades;
  }

  /** The report of a run over prepared inputs. */
  function ReportOf(env: Env): RunResult
    requires DaysOf(env) != []
  {
    var final := FinalState(env);
    Completed(ReportedAll(final.trades), final.curve, env.cfg.pf.initialCash, final.cash, final.rejections,
              Kept(EngineLog(env)), DaysOf(env)[0], DaysOf(env)[|DaysOf(env)| - 1], |env.universe|)
  }

  method RunPrepared(env: Env, calendar: seq<int>) returns (r: RunResult)
    requires calendar == DaysOf(env) && calendar != []
    ensures r == ReportOf(env)
  {
    hide FinalState, DaysOf, WarningsAfter, CountForced;
    var engine := new PortfolioBacktester(env);
    engine.Run(calendar);
    var forced := CountForcedCloses(engine.trades);
    var log := engine.warnings;
    if forced > 0 {
      log := log + [ForceClosed(forced)];
    }
    r := Completed(ReportedAll(engine.trades), engine.curve, env.cfg.pf.initialCash, engine.cash, engine.rejections,
                   log[..Min(MAX_ENGINE_WARNINGS, |log|)], calendar[0], calendar[|calendar| - 1], |env.universe|);
  }

  method CountFlaggedTrades(trades: seq<Trade>) returns (n: nat)
    ensures n == CountFlagged(trades)
  {
    n := 0;
    for i := 0 to |trades|
      invariant n == CountFlagged(trades[..i])
    {
      assert trades[..i + 1][..i] == trades[..i];
      if trades[i].corpFlag {
        n := n + 1;
      }
    }
    assert trades[..|trades|] == trades;
  }

  /** The `warnings` of the stored run: what the engine handed on, the excluded trades, and each counter in turn. */
  method CollectWarnings(handedOn: seq<Warning>, trades: seq<Trade>, rejections: Rejections)
    returns (warnings: seq<Warning>)
    ensures warnings == handedOn + ExcludedLine(CountFlagged(trades)) + RejectionLines(rejections, |REJECTIONS|)
  {
    hide CountFlagged, CounterOf;
    warnings := handedOn;
    var excluded := CountFlaggedTrades(trades);
    if excluded > 0 {
      warnings := warnings + [TradesExcluded(excluded)];
    }
    ghost var before := warnings;
    assert before == handedOn + ExcludedLine(excluded);
    for i := 0 to |REJECTIONS|
      invariant warnings == before + RejectionLines(rejections, i)
    {
      var count := CounterOf(rejections, REJECTIONS[i]);
      if count > 0 {
        warnings := warnings + [SignalsRejected(REJECTIONS[i], count)];
      }
    }
  }

  lemma {:induction false} ReportedFlags(trades: seq<Trade>)
    ensures CountFlagged(ReportedAll(trades)) == CountFlagged(trades)
  {
    if trades != [] {
      ReportedFlags(trades[..|trades| - 1]);
      assert ReportedAll(trades)[..|trades| - 1] == ReportedAll(trades[..|trades| - 1]);
    }
  }

  /** A backtest with the warnings of its stored run. */
  method RunWithWarnings(raw: Env) returns (r: RunResult, warnings: seq<Warning>)
    ensures r.Completed? <==> raw.startDate <= raw.endDate && Runnable(raw)
    ensures r.Completed? ==> warnings == ReportWarnings(Prepared(raw))
  {
    hide FinalState, CountFlagged, EngineLog, RejectionLines, Runnable, DaysOf, ReportedAll;
    warnings := [];
    r := RunBacktest(raw);
    if r.Completed? {
      ReportedFlags(FinalState(Prepared(raw)).trades);
      warnings := CollectWarnings(r.warnings, r.trades, r.rejections);
    }
  }

  /** The loaded universe takes part in a run exactly when some session lies in the window. */
  ghost predicate Runnable(raw: Env) {
    exists s :: s in raw.universe && HasWindowDate(s, raw.startDate, raw.endDate)
  }

  lemma {:induction false} RunnableDays(raw: Env)
    ensures Runnable(raw) <==> DaysOf(Prepared(raw)) != []
    ensures Runnable(raw) <==> Prepared(raw).universe != []
    ensures DaysOf(Prepared(raw)) == Calendar(raw.universe, raw.startDate, raw.endDate)
  {
    CalendarOfEligible(raw.universe, raw.startDate, raw.endDate);
    CalendarNonEmpty(raw.universe, raw.startDate, raw.endDate);
    var some := Prepared(raw).universe;
    assert some != [] ==> some[0] in some;
  }

  ghost predicate Multiple(r: real, n: int, unit: real) {
    r == n as real * unit
  }

  /** `r` is a multiple of `unit` and no further than half a unit from `x`. */
  ghost predicate Rounded(r: real, x: real, unit: real) {
    x - unit / 2.0 <= r <= x + unit / 2.0 && exists n: int :: Multiple(r, n, unit)
  }

  /** `r` reports the exact trade `tr`: money to the cent, prices to four places, the return to three. */
  ghost predicate ReportedAs(r: Trade, tr: Trade) {
    && r.stockId == tr.stockId && r.signalDate == tr.signalDate && r.entryDate == tr.entryDate
    && r.exitDate == tr.exitDate && r.shares == tr.shares && r.reason == tr.reason && r.corpFlag == tr.corpFlag
    && Rounded(r.gross, tr.gross, 0.01) && Rounded(r.costs, tr.costs, 0.01) && Rounded(r.net, tr.net, 0.01)
    && Rounded(r.entryOpen, tr.entryOpen, 0.0001) && Rounded(r.entryExec, tr.entryExec, 0.0001)
    && Rounded(r.exitExec, tr.exitExec, 0.0001) && Rounded(r.returnPct, tr.returnPct, 0.001)
  }

  lemma {:induction false} RoundsToUnit(x: real, scale: real, unit: real)
    requires scale > 0.0 && unit * scale == 1.0
    ensures Rounded(RoundTo(x, scale), x, unit)
  {
    var n := RoundsToTick(x, scale);
    var r := RoundTo(x, scale);
    hide RoundTo;
    UnitOf(r, n as real, scale, unit);
    HalfUnit(r - x, scale, unit);
    assert Multiple(r, n, unit);
  }

  lemma {:induction false} UnitOf(r: real, n: real, scale: real, unit: real)
    requires scale > 0.0 && unit * scale == 1.0 && r == n / scale
    ensures r == n * unit
  {
    DivideMultiply(n, scale);
    assert r * scale == n;
    assert r * (unit * scale) == (r * scale) * unit;
  }

  lemma {:induction false} HalfUnit(e: real, scale: real, unit: real)
    requires scale > 0.0 && unit * scale == 1.0 && Abs(e) * scale <= 0.5
    ensures -unit / 2.0 <= e <= unit / 2.0
  {
    if unit / 2.0 < Abs(e) {
      ScaleLess(unit / 2.0, Abs(e), scale);
      assert unit / 2.0 * scale == 0.5;
    }
  }

  lemma {:induction false} ReportsTrade(tr: Trade)
    ensures ReportedAs(tr.Reported(), tr)
  {
    hide Rounded, RoundTo;
    RoundsToUnit(tr.gross, 100.0, 0.01);
    RoundsToUnit(tr.costs, 100.0, 0.01);
    RoundsToUnit(tr.net, 100.0, 0.01);
    RoundsToUnit(tr.entryOpen, 10000.0, 0.0001);
    RoundsToUnit(tr.entryExec, 10000.0, 0.0001);
    RoundsToUnit(tr.exitExec, 10000.0, 0.0001);
    RoundsToUnit(tr.returnPct, 1000.0, 0.001);
  }

  /**
   The report `r` of a run: one record per trade of the final state, in order, with the same stock, dates, shares,
   reason and flag and with the amounts rounded; the curve, the cash and the counters of the final state; the first 200
   lines of its log; and the extent of its calendar and universe.
   */
  ghost predicate ReportsRun(env: Env, r: RunResult)
    requires DaysOf(env) != []
  {
    var final, days, log := FinalState(env), DaysOf(env), EngineLog(env);
    && r.Completed?
    && |r.trades| == |final.trades|
    && (forall i :: 0 <= i < |final.trades| ==> ReportedAs(r.trades[i], final.trades[i]))
    && r.curve == final.curve && r.finalCash == final.cash && r.rejections == final.rejections
    && r.initialCash == env.cfg.pf.initialCash
    && r.warnings <= log && |r.warnings| == (if |log| < 200 then |log| else 200)
    && r.dataStart == days[0] && r.dataEnd == days[|days| - 1] && r.stocksTested == |env.universe|
  }

  lemma {:induction false} RunIsReported(env: Env)
    requires DaysOf(env) != []
    ensures ReportsRun(env, ReportOf(env))
  {
    hide FinalState, DaysOf, EngineLog, ReportedAs;
    forall i | 0 <= i < |FinalState(env).trades|
      ensures ReportedAs(ReportedAll(FinalState(env).trades)[i], FinalState(env).trades[i])
    {
      ReportsTrade(FinalState(env).trades[i]);
    }
  }

  /**
   A report that adds up: it starts at the initial cash, covers its dates, settles the last positions at one fee, is
   explained by its trades to half a cent each, and is never overdrawn when prices are not negative.
   */
  ghost predicate AddsUp(env: Env, r: RunResult)
    requires r.Completed?
  {
    && r.curve != []
    && var last := r.curve[|r.curve| - 1];
       && r.dataStart == r.curve[0].date && r.dataEnd == last.date
       && r.curve[0].equity == r.initialCash
       && Abs(r.finalCash - r.initialCash - SumNet(r.trades)) <= 0.005 * |r.trades| as real
       && r.finalCash == last.cash + (1.0 - (env.cfg.cost.brokeragePct + env.cfg.cost.taxPct) / 100.0)
                                     * last.positionsValue
       && (Priced(env) ==> 0.0 <= r.finalCash && forall p :: p in r.curve ==> 0.0 <= p.cash)
  }

  /** Validation, universe selection, the run and its report. */
  method RunBacktest(raw: Env) returns (r: RunResult)
    ensures r.InvalidRange? <==> raw.startDate > raw.endDate
    ensures r.NoHistory? <==> raw.startDate <= raw.endDate && !Runnable(raw)
    ensures r.Completed? ==> DaysOf(Prepared(raw)) != [] && r == ReportOf(Prepared(raw))
    ensures r.Completed? ==> ReportsRun(Prepared(raw), r)
    ensures r.Completed? ==> AddsUp(Prepared(raw), r)
  {
    hide *;
    if raw.startDate > raw.endDate {
      return InvalidRange;
    }
    var eligible, calendar := SelectUniverse(raw.universe, raw.startDate, raw.endDate);
    RunnableDays(raw);
    PreparedIs(raw);
    if eligible == [] {
      return NoHistory;
    }
    r := RunPrepared(raw.(universe := eligible), calendar);
    ReportCompletes(Prepared(raw));
    RunIsReported(Prepared(raw));
    ReportGuarantees(Prepared(raw));
  }

  lemma {:induction false} PreparedIs(raw: Env)
    ensures DistinctIds(Eligible(raw.universe, raw.startDate, raw.endDate))
    ensures Prepared(raw) == raw.(universe := Eligible(raw.universe, raw.startDate, raw.endDate))
  {
    EligibleDistinct(raw.universe, raw.startDate, raw.endDate);
  }

  lemma {:induction false} ReportCompletes(env: Env)
    requires DaysOf(env) != []
    ensures ReportOf(env).Completed?
  {
  }

  lemma {:induction false} CurveSpans(env: Env)
    requires DaysOf(env) != []
    ensures var days, curve := DaysOf(env), FinalState(env).curve;
            && |curve| == |days|
            && curve[0].date == days[0] && curve[|days| - 1].date == days[|days| - 1]
            && (Priced(env) ==> forall p :: p in curve ==> 0.0 <= p.cash)
  {
    hide FinalState, DaysOf, Priced;
    CurveIsTruthful(env);
  }

  /** The report of any run with at least one day adds up. */
  lemma {:induction false} ReportGuarantees(env: Env)
    requires DaysOf(env) != []
    ensures ReportOf(env).Completed? && AddsUp(env, ReportOf(env))
  {
    hide FinalState, DaysOf, Priced, SumNet, SumReportedNet, ReportedAll, EngineLog;
    CurveSpans(env);
    SettlementIdentity(env);
    CurveStartsAtInitialCash(env);
    ReportExplainsFinalCash(env);
    ReportedSum(FinalState(env).trades);
    if Priced(env) {
      CashNeverNegative(env);
    }
  }
}
