/** The invariants hold after every day of every run. */
module RunProofs {
  import opened MarketData
  import opened Engine
  import opened Invariants
  import opened ExecutionProofs
  import opened ExitProofs
  import opened SignalProofs
  import opened Calendars

  lemma {:induction false} ExitsKept(env: Env, t: int, d: int, st: State)
    requires Consecutive(env, t, d)
    requires OrdersOk(env, d, st.pending) && Between(env, t, d, st, st.pending)
    ensures Inv(env, d, DetectExits(env, d, st))
  {
    hide Consecutive, Scanning, Between, Inv, ExitAll;
    ScanStarts(env, t, d, st);
    PositionsScanned(env, t, d, IdsOn(Sell, st.pending), st.(positions := []), st.positions);
    ScanEnds(env, t, d, IdsOn(Sell, st.pending), DetectExits(env, d, st));
  }

  lemma {:induction false} ScanStarts(env: Env, t: int, d: int, st: State)
    requires OrdersOk(env, d, st.pending) && Between(env, t, d, st, st.pending)
    ensures Scanning(env, t, d, IdsOn(Sell, st.pending), st.(positions := []), st.positions)
  {
    hide OrdersOk, PositionOk, Linked, TradesOk, Queue, History, Priced;
    assert [] + st.positions == st.positions;
  }

  lemma {:induction false} ScanEnds(env: Env, t: int, d: int, selling: set<int>, st: State)
    requires Scanning(env, t, d, selling, st, [])
    ensures Inv(env, d, st)
  {
    hide OrdersOk, PositionsOk, TradesOk, Queue, History, Books;
    assert st.positions + [] == st.positions;
  }

  /** One day of the run keeps everything. */
  lemma {:induction false} DayKeeps(env: Env, t: int, d: int, st: State)
    requires Consecutive(env, t, d) && Inv(env, t, st) && env.startDate <= d
    ensures Inv(env, d, Day(env, d, st))
  {
    hide Consecutive, Inv, OrdersOk, Between, ExecuteOrders, DetectExits, SignalAll;
    OrdersKept(env, t, d, st);
    var executed := ExecuteOrders(env, d, st);
    ExitsKept(env, t, d, executed);
    var scanned := DetectExits(env, d, executed);
    SignalsHeard(env, d, scanned, PositionIds(scanned.positions) + IdsOn(Buy, scanned.pending), env.universe);
    Marked(env, d, DetectSignals(env, d, scanned));
  }

  lemma {:induction false} InitialOk(env: Env)
    ensures Inv(env, env.startDate - 1, Initial(env))
  {
  }

  /** The state after the first `k` days of the calendar. */
  function StateAfter(env: Env, k: nat): State
    requires k <= |DaysOf(env)|
  {
    RunDays(env, DaysOf(env)[..k], Initial(env))
  }

  lemma {:induction false} StateAfterNone(env: Env)
    ensures StateAfter(env, 0) == Initial(env)
  {
  }

  lemma {:induction false} StateAfterNext(env: Env, k: nat)
    requires k < |DaysOf(env)|
    ensures StateAfter(env, k + 1) == Day(env, DaysOf(env)[k], StateAfter(env, k))
  {
    hide Day;
    assert DaysOf(env)[..k + 1][..k] == DaysOf(env)[..k];
  }

  /** After any number of days of the calendar the invariant holds through the last of them. */
  lemma {:induction false} RunKeeps(env: Env, k: nat)
    requires k <= |DaysOf(env)|
    ensures Inv(env, Through(env, DaysOf(env), k), StateAfter(env, k))
  {
    hide Inv, Day, Consecutive;
    if k == 0 {
      InitialOk(env);
    } else {
      RunKeeps(env, k - 1);
      NothingSkipped(env, k - 1);
      StateAfterNext(env, k - 1);
      DayKeeps(env, Through(env, DaysOf(env), k - 1), DaysOf(env)[k - 1], StateAfter(env, k - 1));
    }
  }
}
