/** Entry signals, market breadth and exit triggers, all read off rows on or before the decision day. */
module Signals {
  import opened Numbers
  import opened MarketData

  const RSI_OVERSOLD := 35.0
  const CORP_ACTION_RETURN_THRESHOLD_PCT := 25.0

  /** A fresh bullish MACD cross between two consecutive sessions. */
  predicate MacdCrossUp(row: Row, prev: Row) {
    && row.macd.Some? && row.macdSignal.Some? && prev.macd.Some? && prev.macdSignal.Some?
    && prev.macd.value <= prev.macdSignal.value
    && row.macd.value > row.macdSignal.value
  }

  predicate Oversold(row: Row) {
    row.rsi14.Some? && row.rsi14.value < RSI_OVERSOLD
  }

  predicate VolumeConfirmed(row: Row, ratio: real) {
    && row.volumeSma20.Some? && row.volumeSma20.value > 0.0
    && row.volume as real >= row.volumeSma20.value * ratio
  }

  /** `_signal_at`. */
  predicate SignalAt(row: Row, prev: Option<Row>, strategy: Strategy, breadthOk: bool, ratio: real) {
    var macdUp := prev.Some? && MacdCrossUp(row, prev.value);
    match strategy
    case RsiMacdV1 => Oversold(row) || macdUp
    case StrictResearchV1 => Oversold(row) && macdUp && VolumeConfirmed(row, ratio) && breadthOk
  }

  /** Stocks with a 50-session average on day `d`: how many there are and how many close above it. */
  function BreadthTally(universe: seq<Stock>, d: int): (t: (nat, nat))
    ensures t.0 <= t.1
  {
    if universe == [] then (0, 0)
    else
      var (above, known) := BreadthTally(universe[..|universe| - 1], d);
      TallyStock(universe[|universe| - 1], d, above, known)
  }

  function TallyStock(s: Stock, d: int, above: nat, known: nat): (t: (nat, nat))
    requires above <= known
    ensures t.0 <= t.1
  {
    if !HasSession(s, d) || RowAt(s, d).sma50.None? then (above, known)
    else (if RowAt(s, d).close > RowAt(s, d).sma50.value then above + 1 else above, known + 1)
  }

  /** `breadth_by_date.get(d, 0.0)` for a day of the calendar. */
  function Breadth(env: Env, d: int): real {
    var (above, known) := BreadthTally(env.universe, d);
    if !env.cfg.Strict() || known == 0 then 0.0 else above as real / known as real
  }

  predicate HasAverage(s: Stock, d: int) {
    HasSession(s, d) && RowAt(s, d).sma50.Some?
  }

  predicate ClosesAbove(s: Stock, d: int) {
    HasAverage(s, d) && RowAt(s, d).close > RowAt(s, d).sma50.value
  }

  /** The stocks with a session and a 50-session average on day `d`. */
  ghost function WithAverage(universe: seq<Stock>, d: int): set<Stock> {
    set s | s in universe && HasAverage(s, d)
  }

  /** Those of them that close above it. */
  ghost function AboveAverage(universe: seq<Stock>, d: int): set<Stock> {
    set s | s in universe && ClosesAbove(s, d)
  }

  lemma {:induction false} OneMoreStock(universe: seq<Stock>, d: int)
    requires DistinctIds(universe) && universe != []
    ensures var s, before := universe[|universe| - 1], universe[..|universe| - 1];
            && DistinctIds(before) && s !in WithAverage(before, d) && s !in AboveAverage(before, d)
            && WithAverage(universe, d) == WithAverage(before, d) + (if HasAverage(s, d) then {s} else {})
            && AboveAverage(universe, d) == AboveAverage(before, d) + (if ClosesAbove(s, d) then {s} else {})
  {
    hide HasAverage, ClosesAbove;
    var s, before := universe[|universe| - 1], universe[..|universe| - 1];
    assert forall x :: x in universe <==> x in before || x == s;
  }

  lemma {:induction false} OneMoreTallied(universe: seq<Stock>, d: int)
    requires universe != []
    ensures var s, before := universe[|universe| - 1], BreadthTally(universe[..|universe| - 1], d);
            BreadthTally(universe, d) == (before.0 + (if ClosesAbove(s, d) then 1 else 0),
                                          before.1 + (if HasAverage(s, d) then 1 else 0))
  {
  }

  lemma {:induction false} NothingTallied(d: int)
    ensures BreadthTally([], d) == (0, 0) && AboveAverage([], d) == {} && WithAverage([], d) == {}
  {
  }

  /** The tally counts stocks. */
  lemma {:induction false} TallyCounts(universe: seq<Stock>, d: int)
    requires DistinctIds(universe)
    ensures BreadthTally(universe, d) == (|AboveAverage(universe, d)|, |WithAverage(universe, d)|)
  {
    hide *;
    if universe == [] {
      NothingTallied(d);
    } else {
      var s, before := universe[|universe| - 1], universe[..|universe| - 1];
      OneMoreStock(universe, d);
      OneMoreTallied(universe, d);
      TallyCounts(before, d);
      OneMoreElement(WithAverage(before, d), s, HasAverage(s, d));
      OneMoreElement(AboveAverage(before, d), s, ClosesAbove(s, d));
    }
  }

  lemma {:induction false} OneMoreElement(known: set<Stock>, s: Stock, counts: bool)
    requires s !in known
    ensures |known + (if counts then {s} else {})| == |known| + (if counts then 1 else 0)
  {
    assert known + {} == known;
  }

  /** Market breadth is the share of stocks above their average among those that have one. */
  lemma {:induction false} BreadthIsShare(env: Env, d: int)
    requires env.cfg.Strict()
    ensures var above, known := AboveAverage(env.universe, d), WithAverage(env.universe, d);
            && above <= known
            && Breadth(env, d) == if known == {} then 0.0 else |above| as real / |known| as real
  {
    TallyCounts(env.universe, d);
  }

  /** Does the session with index `k` of `s` fire an entry signal? The first row of a series never does. */
  predicate Fires(env: Env, s: Stock, k: nat)
    requires k < |s.dates|
  {
    && 0 < k
    && SignalAt(s.rows[k], Some(s.rows[k - 1]), env.cfg.pf.strategy,
                Breadth(env, s.dates[k]) >= env.cfg.pf.breadthThreshold, env.cfg.pf.volumeConfirmationRatio)
  }

  predicate FiresOn(env: Env, s: Stock, d: int) {
    HasSession(s, d) && Fires(env, s, Index(s, d))
  }

  /** An implausible single-day return: most likely an unadjusted corporate action. */
  predicate ReturnJump(row: Row) {
    row.return1d.Some? && Abs(row.return1d.value) * 100.0 >= CORP_ACTION_RETURN_THRESHOLD_PCT
  }

  predicate TargetHit(cfg: Config, row: Row, entryExec: real) {
    row.close >= entryExec * (1.0 + cfg.pf.targetReturnPct / PERCENT)
  }

  /** The stop reads the bar's low; a low of zero counts as missing and falls back to the close. */
  predicate StopHit(cfg: Config, row: Row, entryExec: real) {
    && cfg.pf.stopLossPct.Some?
    && (if row.low == 0.0 then row.close else row.low)
       <= entryExec * (1.0 - cfg.pf.stopLossPct.value / PERCENT)
  }

  /** Does session `k` trigger the exit of a position entered at session `entry`? */
  predicate Triggers(cfg: Config, s: Stock, entry: int, entryExec: real, k: nat)
    requires k < |s.dates|
  {
    || TargetHit(cfg, s.rows[k], entryExec)
    || StopHit(cfg, s.rows[k], entryExec)
    || k - entry >= cfg.pf.holdDays
  }
}
