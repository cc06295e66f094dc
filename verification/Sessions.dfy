/** How the view of a stock moves on from one processed day to the next. */
module Sessions {
  import opened MarketData
  import opened Engine
  import opened Invariants

  /** At most one new session appears per processed day: the one dated that day. */
  lemma {:induction false} SeenNext(env: Env, t: int, d: int, id: int)
    requires Consecutive(env, t, d)
    ensures var s := env.Series(id); Seen(s, d) == Seen(s, t) + (if HasSession(s, d) then 1 else 0)
  {
    var s := env.Series(id);
    var n := Seen(s, t);
    if n < |s.dates| {
      assert s in env.universe;
      assert s.dates[n] >= d;
      if s.dates[n] == d {
        assert HasSession(s, d);
      }
    }
  }

  /** A position that the exit scan does not look at today stays as it was through today. */
  lemma {:induction false} WaitingUnseen(env: Env, t: int, d: int, p: Position)
    requires Consecutive(env, t, d) && Waiting(env, t, p) && !HasSession(env.Series(p.stockId), d)
    ensures Waiting(env, d, p)
  {
    SeenNext(env, t, d, p.stockId);
  }
}
