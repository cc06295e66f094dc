/** Price series, configuration and the point-in-time view of one backtest. */
module MarketData {
  import opened Numbers

  const PERCENT := 100.0

  /** One indicator row. Missing (NaN) indicator values are `None`. */
  datatype Row = Row(open: real, high: real, low: real, close: real, volume: int, return1d: Option<real>,
                     rsi14: Option<real>, macd: Option<real>, macdSignal: Option<real>,
                     volumeSma20: Option<real>, sma50: Option<real>)

  /** A stock's sessions in date order, one row per session. */
  datatype StockSeries = StockSeries(id: int, dates: seq<int>, rows: seq<Row>)

  ghost predicate StrictlyIncreasing(dates: seq<int>) {
    forall i, j :: 0 <= i < j < |dates| ==> dates[i] < dates[j]
  }

  type Stock = s: StockSeries | |s.rows| == |s.dates| && StrictlyIncreasing(s.dates)
    witness StockSeries(0, [], [])

  /** Per-side costs in percent; combined they stay above -100%, or the source divides by zero. */
  datatype Costs = Costs(brokeragePct: real, taxPct: real, spreadPct: real, slippagePct: real,
                         liquidityLimitPct: real, minLiquidityShares: int) {
    function AdversePricePct(): real {
      (spreadPct + slippagePct) / PERCENT
    }

    function FeePct(): real {
      (brokeragePct + taxPct) / PERCENT
    }
  }

  type CostConfig = c: Costs | c.AdversePricePct() > -1.0 && c.FeePct() > -1.0
    witness Costs(0.0, 0.0, 0.0, 0.0, 0.0, 0)

  datatype Strategy = RsiMacdV1 | StrictResearchV1

  datatype PortfolioConfig = PortfolioConfig(initialCash: real, positionSizePct: real, maxPositions: int,
                                             holdDays: int, targetReturnPct: real, strategy: Strategy,
                                             stopLossPct: Option<real>, volumeConfirmationRatio: real,
                                             breadthThreshold: real)

  datatype Config = Config(cost: CostConfig, pf: PortfolioConfig) {
    predicate Strict() {
      pf.strategy == StrictResearchV1
    }
  }

  /** Everything one run reads: configuration, window and the frozen universe. */
  datatype Inputs = Inputs(cfg: Config, startDate: int, endDate: int, universe: seq<Stock>) {
    /** The `by_stock` lookup. An id outside the universe yields a series without sessions. */
    function Series(id: int): Stock {
      Lookup(universe, id)
    }
  }

  ghost predicate DistinctIds(universe: seq<Stock>) {
    forall i, j :: 0 <= i < j < |universe| ==> universe[i].id != universe[j].id
  }

  type Env = e: Inputs | DistinctIds(e.universe)
    witness Inputs(Config(Costs(0.0, 0.0, 0.0, 0.0, 0.0, 0),
                          PortfolioConfig(0.0, 0.0, 0, 0, 0.0, RsiMacdV1, None, 0.0, 0.0)), 0, 0, [])

  function Lookup(universe: seq<Stock>, id: int): (s: Stock)
    ensures s.id == id
    ensures s in universe || s.dates == []
    ensures (exists r :: r in universe && r.id == id) ==> s in universe
  {
    if universe == [] then StockSeries(id, [], [])
    else if universe[0].id == id then universe[0]
    else Lookup(universe[1..], id)
  }

  lemma {:induction false} LookupMember(env: Env, s: Stock)
    requires s in env.universe
    ensures env.Series(s.id) == s
  {
    var r := env.Series(s.id);
    assert r in env.universe;
  }

  /** `bisect.bisect_right`: how many of the sorted dates are on or before `d`. */
  function BisectRight(dates: seq<int>, d: int): (n: nat)
    ensures n <= |dates|
    ensures forall i :: n <= i < |dates| ==> d < dates[i]
    ensures 0 < n ==> dates[n - 1] <= d
  {
    if dates == [] then 0
    else if dates[|dates| - 1] <= d then |dates|
    else BisectRight(dates[..|dates| - 1], d)
  }

  /** The number of sessions of `s` on or before `d`. */
  function Seen(s: Stock, d: int): (n: nat)
    ensures n <= |s.dates|
    ensures forall i :: 0 <= i < |s.dates| ==> (i < n <==> s.dates[i] <= d)
  {
    BisectRight(s.dates, d)
  }

  /** `d in s.frame.index`. */
  predicate HasSession(s: Stock, d: int)
    ensures HasSession(s, d) <==> d in s.dates
  {
    0 < Seen(s, d) && s.dates[Seen(s, d) - 1] == d
  }

  /** `s.date_to_idx[d]`. */
  function Index(s: Stock, d: int): (i: nat)
    requires HasSession(s, d)
    ensures i < |s.dates| && s.dates[i] == d && i == Seen(s, d) - 1
  {
    Seen(s, d) - 1
  }

  function RowAt(s: Stock, d: int): Row
    requires HasSession(s, d)
  {
    s.rows[Index(s, d)]
  }

  /** `_stock_next_date`: the first session after `d`, unless it lies beyond the window. */
  function NextDate(env: Env, s: Stock, d: int): (next: Option<int>)
    ensures next.Some? ==> d < next.value <= env.endDate
    ensures next.Some? ==> HasSession(s, next.value) && Index(s, next.value) == Seen(s, d)
    ensures next.None? ==> forall i :: Seen(s, d) <= i < |s.dates| ==> env.endDate < s.dates[i]
  {
    var i := Seen(s, d);
    if i < |s.dates| && s.dates[i] <= env.endDate then
      assert Seen(s, s.dates[i]) == i + 1;
      Some(s.dates[i])
    else None
  }
}
