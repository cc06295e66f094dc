/** The liquidity cap and sales: entries respect it, sales do not look at it. */
module SaleLiquidity {
  import opened MarketData
  import opened Engine
  import opened Invariants
  import opened Fills
  import opened Rules
  import opened Examples

  /** Trading `shares` would take more than the configured part of the session's volume. */
  predicate ExceedsCap(cfg: Config, shares: int, row: Row) {
    row.volume as real * cfg.cost.liquidityLimitPct / PERCENT < shares as real
  }

  /** A due sale closes the whole position, whatever the volume of its session. */
  lemma {:induction false} SaleIgnoresVolume(env: Env, d: int, st: State, o: Order, row: Row, volume: int)
    ensures FillSell(env, d, st, o, row.(volume := volume)) == FillSell(env, d, st, o, row)
    ensures Holds(st.positions, o.stockId) ==>
              var p, st' := Find(st.positions, o.stockId).value, FillSell(env, d, st, o, row);
              && |st'.trades| == |st.trades| + 1 && st'.trades[|st.trades|].shares == p.shares
              && st'.positions == Without(st.positions, o.stockId)
  {
  }

  /** The part of a session's volume that the cap allows. */
  function Cap(cfg: Config, row: Row): real {
    row.volume as real * cfg.cost.liquidityLimitPct / PERCENT
  }

  /**
   When a sale breaks the cap. Take a fillable entry on the row `entry` from the state `st`, and a later state `held` in
   which that position is due for sale on the row `exit`. The sale takes more than the cap of its session exactly when
   one share more than that cap allows was still within the three limits at the entry.
   */
  lemma {:induction false} SaleExceedsCapExactlyWhen(env: Env, st: State, entry: Row, held: State, sale: Order, d: int,
                                                     exit: Row)
    requires Fillable(env.cfg, st, entry) && 0 < entry.volume && 0 < exit.volume
    requires Holds(held.positions, sale.stockId)
    requires Find(held.positions, sale.stockId).value.shares == Sized(env.cfg, st, entry)
    ensures var st' := FillSell(env, d, held, sale, exit);
            && |st'.trades| == |held.trades| + 1
            && (ExceedsCap(env.cfg, st'.trades[|held.trades|].shares, exit)
                <==> WithinLimits(env.cfg, st, entry, Cap(env.cfg, exit).Floor + 1))
  {
    hide FillSell, Fillable, WithinLimits, Sized, ExceedsCap, Cap;
    SaleIgnoresVolume(env, d, held, sale, exit, exit.volume);
    SomeCap(env.cfg, st, entry, exit);
    SizedBeyond(env.cfg, st, entry, exit);
  }

  lemma {:induction false} SomeCap(cfg: Config, st: State, entry: Row, exit: Row)
    requires Fillable(cfg, st, entry) && 0 < entry.volume && 0 < exit.volume
    ensures entry.open > 0.0 && 0 <= Cap(cfg, exit).Floor
  {
    hide EntryExec, FillOf, NotionalTarget, MarketValue, Sized;
    SizedIsLargest(cfg, st, entry, 1);
    var limit := cfg.cost.liquidityLimitPct;
    if limit <= 0.0 {
      ScaleUp(-(entry.volume as real), 0.0, -limit);
    }
    ScaleUp(0.0, exit.volume as real, limit);
  }

  lemma {:induction false} SizedBeyond(cfg: Config, st: State, entry: Row, exit: Row)
    requires entry.open > 0.0 && 0 <= Cap(cfg, exit).Floor
    ensures ExceedsCap(cfg, Sized(cfg, st, entry), exit) <==> WithinLimits(cfg, st, entry, Cap(cfg, exit).Floor + 1)
  {
    hide WithinLimits, Sized;
    SizedIsLargest(cfg, st, entry, Cap(cfg, exit).Floor + 1);
  }

  /**
   Every entry fits the cap of its session, and so does every sale on a session with at least as much volume, unless the
   limit is negative.
   */
  lemma {:induction false} TradesWithinCap(env: Env, t: int, tr: Trade)
    requires FinalTradeOk(env, t, tr) && !tr.Forced()
    ensures var s := env.Series(tr.stockId);
            && HasSession(s, tr.entryDate) && HasSession(s, tr.exitDate)
            && !ExceedsCap(env.cfg, tr.shares, RowAt(s, tr.entryDate))
            && (RowAt(s, tr.entryDate).volume <= RowAt(s, tr.exitDate).volume && 0.0 <= env.cfg.cost.liquidityLimitPct
                ==> !ExceedsCap(env.cfg, tr.shares, RowAt(s, tr.exitDate)))
  {
    hide Settled, Quiet, FilledAfter, EntryExec;
    var s := env.Series(tr.stockId);
    EntryWithinCap(env, tr);
    MoreVolume(env.cfg, tr.shares, RowAt(s, tr.entryDate), RowAt(s, tr.exitDate));
    hide ExceedsCap, EntryOk;
  }

  lemma {:induction false} EntryWithinCap(env: Env, tr: Trade)
    requires TradeEntryOk(env, tr)
    ensures !ExceedsCap(env.cfg, tr.shares, RowAt(env.Series(tr.stockId), tr.entryDate))
  {
    hide Quiet, EntryExec;
  }

  lemma {:induction false} CapScaled(cfg: Config, shares: int, row: Row)
    ensures ExceedsCap(cfg, shares, row)
            <==> row.volume as real * cfg.cost.liquidityLimitPct < shares as real * PERCENT
  {
    var x := row.volume as real * cfg.cost.liquidityLimitPct;
    assert (x / PERCENT) * PERCENT == x;
  }

  lemma {:induction false} MoreVolume(cfg: Config, shares: int, a: Row, b: Row)
    requires !ExceedsCap(cfg, shares, a)
    ensures a.volume <= b.volume && 0.0 <= cfg.cost.liquidityLimitPct ==> !ExceedsCap(cfg, shares, b)
  {
    CapScaled(cfg, shares, a);
    CapScaled(cfg, shares, b);
    hide ExceedsCap;
    if a.volume <= b.volume && 0.0 <= cfg.cost.liquidityLimitPct {
      ScaleUp(a.volume as real, b.volume as real, cfg.cost.liquidityLimitPct);
    }
  }

  lemma {:induction false} ScaleUp(a: real, b: real, limit: real)
    requires a <= b && 0.0 <= limit
    ensures a * limit <= b * limit
  {
  }

  // ---- An example ----

  function WithVolume(volume: int): Row {
    PlainRow(50.0).(volume := volume)
  }

  function DueEntry(): Order {
    Order(1, Buy, 100, 101, ENTRY_RETRY_SESSIONS, NoReason)
  }

  function DueSale(): Order {
    Order(1, Sell, 101, 102, EXIT_RETRY_SESSIONS, HoldDays)
  }

  /** 5% of 1000 in cash buys five shares at 10, far below 5% of 1000 traded. */
  lemma {:induction false} FiveAreBought(env: Env)
    requires env.cfg == PlainConfig()
    ensures Sized(env.cfg, Initial(env), WithVolume(1000)) == 5
  {
    hide Sized, WithinLimits;
    SizedIsLargest(env.cfg, Initial(env), WithVolume(1000), 5);
    SizedIsLargest(env.cfg, Initial(env), WithVolume(1000), 6);
    LimitsOf(env, 5);
    LimitsOf(env, 6);
  }

  lemma {:induction false} LimitsOf(env: Env, n: nat)
    requires env.cfg == PlainConfig() && n <= 50
    ensures WithinLimits(env.cfg, Initial(env), WithVolume(1000), n) <==> n <= 5
  {
    AtTen(n);
    hide Paid;
    assert MarketValue([]) == 0.0;
  }

  lemma {:induction false} AtTen(n: nat)
    ensures Paid(PlainConfig().cost, n, 10.0) == 10.0 * n as real
  {
  }

  /** Five shares bought on a busy session are all sold on one where 5% of the volume is half a share. */
  lemma {:induction false} SaleBeyondTheCap(env: Env)
    requires env.cfg == PlainConfig()
    ensures var st := Open(env.cfg, Initial(env), DueEntry(), 101, WithVolume(1000));
            var st' := FillSell(env, 102, st, DueSale(), WithVolume(10));
            && |st'.trades| == 1 && st'.trades[0].shares == 5 && ExceedsCap(env.cfg, 5, WithVolume(10))
  {
    FiveAreBought(env);
    OpenOutcome(env.cfg, Initial(env), DueEntry(), 101, WithVolume(1000));
    var st := Open(env.cfg, Initial(env), DueEntry(), 101, WithVolume(1000));
    var p := NewPosition(DueEntry(), 101, WithVolume(1000), FillOf(env.cfg, 5, 10.0));
    hide Open, Sized, FillOf, Proceeds, TradeOf;
    assert st.positions == [p];
    assert p in st.positions && p.stockId == 1;
    SaleIgnoresVolume(env, 102, st, DueSale(), WithVolume(10), 10);
  }
}
