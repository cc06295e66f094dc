/** The phases of a day, told in the rules of entry, exit and cost. */
module PhaseRules {
  import opened Numbers
  import opened MarketData
  import opened Signals
  import opened Engine
  import opened Rules
  import opened Fills

  // ---- Orders ----

  /**
   A due order whose session does not trade waits for the stock's next session with one attempt less, while there is one
   and attempts are left. After that an entry is counted as abandoned; a sale keeps its target and goes on waiting.
   */
  ghost predicate RetriedByRule(env: Env, d: int, st: State, o: Order, st': State) {
    var next := NextDate(env, env.Series(o.stockId), d);
    if next.Some? && 2 <= o.attemptsLeft then
      st' == st.(pending := st.pending + [Order(o.stockId, o.side, o.signalDate, next.value, o.attemptsLeft - 1,
                                                o.reason)])
    else if o.side == Buy then
      st' == st.(rejections := Rejections(st.rejections.insufficient, st.rejections.maxPositions,
                                          st.rejections.alreadyOpen, st.rejections.abandoned + 1))
    else
      st' == st.(pending := st.pending + [Order(o.stockId, Sell, o.signalDate, o.targetDate, o.attemptsLeft - 1,
                                                o.reason)])
  }

  /** One order: kept until it is due, retried on a session without volume, else filled or sold at the open. */
  ghost predicate ExecutedByRule(env: Env, d: int, st: State, o: Order, st': State) {
    var s := env.Series(o.stockId);
    if d < o.targetDate then
      st' == st.(pending := st.pending + [o])
    else if !HasSession(s, d) || RowAt(s, d).volume <= 0 then
      RetriedByRule(env, d, st, o, st')
    else if o.side == Buy then
      EnteredByRule(env.cfg, st, o, d, RowAt(s, d), st')
    else
      SaleByRule(env.cfg.cost, st, o, d, RowAt(s, d), st')
  }

  lemma {:induction false} RetriesByRule(env: Env, d: int, st: State, o: Order)
    ensures RetriedByRule(env, d, st, o, Retry(env, d, st, o))
  {
    hide NextDate;
  }

  lemma {:induction false} ExecutesByRule(env: Env, d: int, st: State, o: Order)
    ensures ExecutedByRule(env, d, st, o, ExecuteOne(env, d, st, o))
  {
    hide RetriedByRule, EnteredByRule, SaleByRule, Retry, Open, FillSell;
    RetriesByRule(env, d, st, o);
    if Tradable(env.Series(o.stockId), d) {
      var row := RowAt(env.Series(o.stockId), d);
      EntriesByRule(env.cfg, st, o, d, row);
      SalesByRule(env, d, st, o, row);
    }
  }

  // ---- Exits ----

  /** A position without an exit order that has a session today and calls for an exit. */
  ghost predicate ExitDue(env: Env, d: int, selling: set<int>, p: Position) {
    var s := env.Series(p.stockId);
    && p.stockId !in selling && HasSession(s, d)
    && ExitRule(env.cfg.pf, s, if HasSession(s, p.entryDate) then Index(s, p.entryDate) else Index(s, d),
                p.entryExec, Index(s, d))
  }

  /** Its mark after today: the close, the date, and the flag raised by an implausible return. */
  ghost function MarkedToday(env: Env, d: int, selling: set<int>, p: Position): Position {
    var s := env.Series(p.stockId);
    if p.stockId in selling || !HasSession(s, d) then p
    else p.(lastPrice := RowAt(s, d).close, lastDate := d, corpFlag := p.corpFlag || Implausible(RowAt(s, d)))
  }

  /** `o` sells the due position `p` on its next session, with 10000 attempts and the reason that applies. */
  ghost predicate OrderedToday(env: Env, d: int, selling: set<int>, p: Position, o: Order) {
    var s := env.Series(p.stockId);
    && ExitDue(env, d, selling, p)
    && NextDate(env, s, d) == Some(o.targetDate)
    && ReasonRule(env.cfg.pf, RowAt(s, d), p.entryExec, o.reason)
    && o == Order(p.stockId, Sell, d, o.targetDate, 10_000, o.reason)
  }

  /** The due position `p` has no further session, and `tr` closes it at today's close without an adverse move. */
  ghost predicate ClosedToday(env: Env, d: int, selling: set<int>, p: Position, tr: Trade) {
    var s := env.Series(p.stockId);
    && ExitDue(env, d, selling, p)
    && NextDate(env, s, d).None?
    && var q := MarkedToday(env, d, selling, p);
       tr == SaleOf(env.cfg.cost, q, d, RowAt(s, d).close, false, ForcedNoFurtherData, q.corpFlag)
  }

  /** One position: kept as it is or marked, sold at the close, or marked and ordered to be sold. */
  ghost predicate ScannedByRule(env: Env, d: int, selling: set<int>, st: State, p: Position, st': State) {
    var s, q := env.Series(p.stockId), MarkedToday(env, d, selling, p);
    if !ExitDue(env, d, selling, p) then
      st' == st.(positions := st.positions + [q])
    else if NextDate(env, s, d).None? then
      && st'.cash == st.cash + Received(env.cfg.cost, p.shares, RowAt(s, d).close, false)
      && st' == st.(cash := st'.cash,
                    trades := st.trades + [SaleOf(env.cfg.cost, q, d, RowAt(s, d).close, false, ForcedNoFurtherData,
                                                  q.corpFlag)])
    else
      exists o :: OrderedToday(env, d, selling, p, o)
                  && st' == st.(positions := st.positions + [q], pending := st.pending + [o])
  }

  lemma {:induction false} ScansByRule(env: Env, d: int, selling: set<int>, st: State, p: Position)
    ensures ScannedByRule(env, d, selling, st, p, ExitOne(env, d, selling, st, p))
  {
    var s := env.Series(p.stockId);
    if p.stockId !in selling && HasSession(s, d) {
      var row, q := RowAt(s, d), MarkedToday(env, d, selling, p);
      JumpByRule(row);
      ExitByRule(env.cfg, s, EntryIndex(s, p, Index(s, d)), p.entryExec, Index(s, d));
      assert q == Refreshed(p, d, row);
      ReasonByRule(env.cfg, row, p.entryExec);
      ClosedByRule(env.cfg, st, q, d, row.close, false, ForcedNoFurtherData, q.corpFlag);
      var next := NextDate(env, s, d);
      hide Triggers, ExitRule, ReturnJump, Implausible, ExitReason, ReasonRule, Close, SaleOf, Received, NextDate;
      if ExitDue(env, d, selling, p) && next.Some? {
        assert OrderedToday(env, d, selling, p, Order(p.stockId, Sell, d, next.value, 10_000,
                                                      ExitReason(env.cfg, row, p.entryExec)));
      }
    }
  }

  /** The reason is determined, and with it the order. */
  lemma {:induction false} OneOrder(env: Env, d: int, selling: set<int>, p: Position, a: Order, b: Order)
    requires OrderedToday(env, d, selling, p, a) && OrderedToday(env, d, selling, p, b)
    ensures a == b
  {
    hide ExitDue, StopRule, TargetRule;
  }

  /**
   The whole phase. It appends orders and trades; the new orders are exactly those of the due positions with a further
   session, the new trades exactly those of the due positions without one, and every position that is not so closed
   stays, with its mark.
   */
  ghost predicate ExitsByRule(env: Env, d: int, selling: set<int>, ps: seq<Position>, st: State, st': State) {
    && (forall o :: o in st'.pending <==> o in st.pending || exists p :: p in ps && OrderedToday(env, d, selling, p, o))
    && (forall tr ::
          tr in st'.trades <==> tr in st.trades || exists p :: p in ps && ClosedToday(env, d, selling, p, tr))
    && (forall q :: q in st'.positions <==> q in st.positions || exists p :: p in ps && StaysAs(env, d, selling, p, q))
    && |st'.positions| + |st'.trades| == |st.positions| + |st.trades| + |ps|
    && st.pending <= st'.pending && st.trades <= st'.trades
  }

  ghost predicate StaysAs(env: Env, d: int, selling: set<int>, p: Position, q: Position) {
    && (ExitDue(env, d, selling, p) ==> NextDate(env, env.Series(p.stockId), d).Some?)
    && q == MarkedToday(env, d, selling, p)
  }

  lemma {:induction false} OneScanned(env: Env, d: int, selling: set<int>, st: State, p: Position)
    ensures ExitsByRule(env, d, selling, [p], st, ExitOne(env, d, selling, st, p))
  {
    ScansByRule(env, d, selling, st, p);
    var st' := ExitOne(env, d, selling, st, p);
    hide ExitOne, MarkedToday, NextDate, SaleOf, Received, ExitDue, OrderedToday, ClosedToday;
    NothingToday(env, d, selling, p);
    if ExitDue(env, d, selling, p) && NextDate(env, env.Series(p.stockId), d).Some? {
      var q := MarkedToday(env, d, selling, p);
      var o :| OrderedToday(env, d, selling, p, o)
               && st' == st.(positions := st.positions + [q], pending := st.pending + [o]);
      forall x | OrderedToday(env, d, selling, p, x) ensures x == o {
        OneOrder(env, d, selling, p, x, o);
      }
    }
    assert p in [p];
  }

  /** Only a due position gives rise to an order or a trade, to an order if a session is left and else to a trade. */
  lemma {:induction false} NothingToday(env: Env, d: int, selling: set<int>, p: Position)
    ensures var s, due := env.Series(p.stockId), ExitDue(env, d, selling, p);
            && (forall o :: OrderedToday(env, d, selling, p, o) ==> due && NextDate(env, s, d).Some?)
            && (forall tr :: ClosedToday(env, d, selling, p, tr)
                             <==> due && NextDate(env, s, d).None?
                                  && (var q := MarkedToday(env, d, selling, p);
                                      tr == SaleOf(env.cfg.cost, q, d, RowAt(s, d).close, false, ForcedNoFurtherData,
                                                   q.corpFlag)))
  {
    hide MarkedToday, NextDate, ReasonRule, SaleOf, ExitRule;
  }

  lemma {:induction false} ScansCombine(env: Env, d: int, selling: set<int>, a: seq<Position>, b: seq<Position>,
                                        st: State, mid: State, st': State)
    requires ExitsByRule(env, d, selling, a, st, mid) && ExitsByRule(env, d, selling, b, mid, st')
    ensures ExitsByRule(env, d, selling, a + b, st, st')
  {
    hide OrderedToday, ClosedToday, StaysAs;
    assert forall p :: p in a + b <==> p in a || p in b;
  }

  lemma {:induction false} AllScanned(env: Env, d: int, selling: set<int>, st: State, ps: seq<Position>)
    ensures ExitsByRule(env, d, selling, ps, st, ExitAll(env, d, selling, st, ps))
    decreases |ps|
  {
    hide ExitOne, ExitsByRule;
    if ps == [] {
      NoneScanned(env, d, selling, st);
    } else {
      var next := ExitOne(env, d, selling, st, ps[0]);
      OneScanned(env, d, selling, st, ps[0]);
      AllScanned(env, d, selling, next, ps[1..]);
      ScansCombine(env, d, selling, [ps[0]], ps[1..], st, next, ExitAll(env, d, selling, next, ps[1..]));
      assert [ps[0]] + ps[1..] == ps;
    }
  }

  lemma {:induction false} NoneScanned(env: Env, d: int, selling: set<int>, st: State)
    ensures ExitsByRule(env, d, selling, [], st, st)
  {
  }

  // ---- Entry signals ----

  /** One stock: what its signal does to the queue, to the counters and to the set of busy stocks. */
  ghost predicate HeardByRule(env: Env, d: int, st: State, busy: set<int>, s: Stock, st': State, busy': set<int>) {
    var calls, next := EntryRuleOn(env, s, d), NextDate(env, s, d);
    var taken := calls && s.id in busy;
    var full := calls && s.id !in busy && env.cfg.pf.maxPositions <= |st.positions| + CountBuys(st.pending);
    var queued, late := calls && !taken && !full && next.Some?, calls && !taken && !full && next.None?;
    && st'.audit.fired == st.audit.fired + (if calls then 1 else 0)
    && st'.rejections.alreadyOpen == st.rejections.alreadyOpen + (if taken then 1 else 0)
    && st'.rejections.maxPositions == st.rejections.maxPositions + (if full then 1 else 0)
    && st'.audit.noNextSession == st.audit.noNextSession + (if late then 1 else 0)
    && st'.audit.scheduled == st.audit.scheduled + (if queued then 1 else 0)
    && st'.pending == st.pending + (if queued then [Order(s.id, Buy, d, next.value, 5, NoReason)] else [])
    && busy' == busy + (if queued then {s.id} else {})
    && (var r, a := st'.rejections, st'.audit;
        st' == st.(pending := st'.pending,
                   rejections := st.rejections.(alreadyOpen := r.alreadyOpen, maxPositions := r.maxPositions),
                   audit := st.audit.(fired := a.fired, scheduled := a.scheduled, noNextSession := a.noNextSession)))
  }

  lemma {:induction false} HearsByRule(env: Env, d: int, st: State, busy: set<int>, s: Stock)
    ensures var (st', busy') := SignalOne(env, d, st, busy, s); HeardByRule(env, d, st, busy, s, st', busy')
  {
    FiresOnByRule(env, s, d);
    hide FiresOn, EntryRuleOn, NextDate;
    assert st.pending + [] == st.pending && busy + {} == busy;
  }

  /** `o` buys a stock of `stocks` whose session today calls for an entry, on its next session, with five attempts. */
  ghost predicate CalledForToday(env: Env, d: int, s: Stock, o: Order) {
    && EntryRuleOn(env, s, d)
    && NextDate(env, s, d) == Some(o.targetDate)
    && o == Order(s.id, Buy, d, o.targetDate, 5, NoReason)
  }

  /** The whole phase appends entry orders that the rule calls for, and touches neither account nor book. */
  lemma {:induction false} AllHeard(env: Env, d: int, st: State, busy: set<int>, stocks: seq<Stock>)
    ensures var st' := SignalAll(env, d, st, busy, stocks);
            && st.pending <= st'.pending
            && (forall o :: o in st'.pending ==> o in st.pending
                                                 || exists s :: s in stocks && CalledForToday(env, d, s, o))
            && st'.cash == st.cash && st'.positions == st.positions && st'.trades == st.trades
            && st'.curve == st.curve
    decreases |stocks|
  {
    hide SignalOne, CalledForToday;
    if stocks != [] {
      var (next, busy') := SignalOne(env, d, st, busy, stocks[0]);
      OneHeard(env, d, st, busy, stocks[0]);
      AllHeard(env, d, next, busy', stocks[1..]);
      assert forall s :: s in stocks[1..] ==> s in stocks;
    }
  }

  lemma {:induction false} OneHeard(env: Env, d: int, st: State, busy: set<int>, s: Stock)
    ensures var st' := SignalOne(env, d, st, busy, s).0;
            && st.pending <= st'.pending
            && (forall o :: o in st'.pending ==> o in st.pending || CalledForToday(env, d, s, o))
            && st'.cash == st.cash && st'.positions == st.positions && st'.trades == st.trades
            && st'.curve == st.curve
  {
    HearsByRule(env, d, st, busy, s);
    hide SignalOne, EntryRuleOn, NextDate;
  }
}
