/** Two universes with the same rows through a day, and what the two runs see of them. */
module Agreement {
  import opened MarketData

  /** The same sessions and rows through `d`. Whatever follows may differ. */
  ghost predicate SameHistory(d: int, a: Stock, b: Stock) {
    var n := Seen(a, d);
    && a.id == b.id
    && n == Seen(b, d)
    && a.dates[..n] == b.dates[..n] && a.rows[..n] == b.rows[..n]
  }

  ghost predicate SameHistories(d: int, u: seq<Stock>, u': seq<Stock>) {
    |u| == |u'| && forall i :: 0 <= i < |u| ==> SameHistory(d, u[i], u'[i])
  }

  ghost predicate SameRows(env: Env, env': Env, d: int) {
    && env.cfg == env'.cfg
    && env.startDate == env'.startDate && env.endDate == env'.endDate
    && SameHistories(d, env.universe, env'.universe)
  }

  /** Both runs see the same session of stock `id` following day `c`. */
  predicate NextAgrees(env: Env, env': Env, c: int, id: int) {
    NextDate(env, env.Series(id), c) == NextDate(env', env'.Series(id), c)
  }

  // ---- Histories ----

  lemma {:induction false} SeenIs(s: Stock, c: int, m: nat)
    requires m <= |s.dates|
    requires 0 < m ==> s.dates[m - 1] <= c
    requires m < |s.dates| ==> c < s.dates[m]
    ensures Seen(s, c) == m
  {
  }

  lemma {:induction false} SamePrefix(a: Stock, b: Stock, n: nat, i: nat)
    requires i < n <= |a.dates| && n <= |b.dates|
    requires a.dates[..n] == b.dates[..n] && a.rows[..n] == b.rows[..n]
    ensures a.dates[i] == b.dates[i] && a.rows[i] == b.rows[i]
  {
    assert a.dates[..n][i] == b.dates[..n][i];
    assert a.rows[..n][i] == b.rows[..n][i];
  }

  lemma {:induction false} PrefixOfPrefix<T>(a: seq<T>, b: seq<T>, m: nat, n: nat)
    requires m <= n <= |a| && n <= |b| && a[..n] == b[..n]
    ensures a[..m] == b[..m]
  {
    assert a[..m] == a[..n][..m] && b[..m] == b[..n][..m];
  }

  lemma {:induction false} HistoryEarlier(c: int, d: int, a: Stock, b: Stock)
    requires c <= d && SameHistory(d, a, b)
    ensures SameHistory(c, a, b)
  {
    var n, m := Seen(a, d), Seen(a, c);
    assert m <= n;
    if 0 < m {
      SamePrefix(a, b, n, m - 1);
    }
    if m < n {
      SamePrefix(a, b, n, m);
    }
    SeenIs(b, c, m);
    PrefixOfPrefix(a.dates, b.dates, m, n);
    PrefixOfPrefix(a.rows, b.rows, m, n);
  }

  lemma {:induction false} RowsEarlier(env: Env, env': Env, c: int, d: int)
    requires c <= d && SameRows(env, env', d)
    ensures SameRows(env, env', c)
  {
    hide SameHistory;
    forall i | 0 <= i < |env.universe| ensures SameHistory(c, env.universe[i], env'.universe[i]) {
      HistoryEarlier(c, d, env.universe[i], env'.universe[i]);
    }
  }

  lemma {:induction false} HistorySymmetric(d: int, a: Stock, b: Stock)
    requires SameHistory(d, a, b)
    ensures SameHistory(d, b, a)
  {
  }

  lemma {:induction false} RowsSymmetric(env: Env, env': Env, d: int)
    requires SameRows(env, env', d)
    ensures SameRows(env', env, d)
  {
    hide SameHistory;
    forall i | 0 <= i < |env.universe| ensures SameHistory(d, env'.universe[i], env.universe[i]) {
      HistorySymmetric(d, env.universe[i], env'.universe[i]);
    }
  }

  lemma {:induction false} SameLookup(d: int, u: seq<Stock>, u': seq<Stock>, id: int)
    requires SameHistories(d, u, u')
    ensures SameHistory(d, Lookup(u, id), Lookup(u', id))
  {
    if u != [] {
      assert SameHistory(d, u[0], u'[0]);
      if u[0].id != id {
        SameLookup(d, u[1..], u'[1..], id);
      }
    }
  }

  lemma {:induction false} SameToday(d: int, a: Stock, b: Stock)
    requires SameHistory(d, a, b)
    ensures HasSession(a, d) <==> HasSession(b, d)
    ensures HasSession(a, d) ==> Index(a, d) == Index(b, d) && RowAt(a, d) == RowAt(b, d)
  {
    var n := Seen(a, d);
    if 0 < n {
      SamePrefix(a, b, n, n - 1);
    }
  }

  /** Both runs see the same stock behind an id: session, index and row. */
  lemma {:induction false} SameView(env: Env, env': Env, d: int, id: int)
    requires SameRows(env, env', d)
    ensures var a, b := env.Series(id), env'.Series(id);
            && SameHistory(d, a, b)
            && (HasSession(a, d) <==> HasSession(b, d))
            && (HasSession(a, d) ==> Index(a, d) == Index(b, d) && RowAt(a, d) == RowAt(b, d))
  {
    hide SameHistory, SameHistories;
    SameLookup(d, env.universe, env'.universe, id);
    SameToday(d, env.Series(id), env'.Series(id));
  }

  // ---- Next sessions ----

  /** A next session beyond `d` stays the next one until `d`. */
  lemma {:induction false} NextStays(env: Env, s: Stock, c: int, d: int)
    requires c <= d && (NextDate(env, s, c).Some? ==> d < NextDate(env, s, c).value)
    ensures NextDate(env, s, d) == NextDate(env, s, c)
  {
    if Seen(s, c) < |s.dates| {
      SeenSame(s, c, d);
    }
  }

  lemma {:induction false} SeenSame(s: Stock, c: int, d: int)
    requires c <= d && Seen(s, c) < |s.dates|
    ensures s.dates[Seen(s, c)] > d ==> Seen(s, d) == Seen(s, c)
    ensures Seen(s, c) <= Seen(s, d)
  {
  }

  /** A next session on or before `d` belongs to the common past. */
  lemma {:induction false} NextWithin(env: Env, env': Env, c: int, d: int, a: Stock, b: Stock)
    requires c <= d && env.endDate == env'.endDate && SameHistory(d, a, b)
    requires NextDate(env, a, c).Some? && NextDate(env, a, c).value <= d
    ensures NextDate(env', b, c) == NextDate(env, a, c)
  {
    HistoryEarlier(c, d, a, b);
    var i := Seen(a, c);
    assert i < Seen(a, d);
    SamePrefix(a, b, Seen(a, d), i);
  }

  /**
   Next sessions that differ lie beyond the common past, and neither run will see the other's as its next session
   before that past is over.
   */
  lemma {:induction false} NextBeyond(env: Env, env': Env, c: int, d: int, id: int)
    requires c <= d && SameRows(env, env', d) && !NextAgrees(env, env', c, id)
    ensures var next, next' := NextDate(env, env.Series(id), c), NextDate(env', env'.Series(id), c);
            && (next.Some? ==> d < next.value) && (next'.Some? ==> d < next'.value)
            && NextDate(env, env.Series(id), d) == next && NextDate(env', env'.Series(id), d) == next'
  {
    var a, b := env.Series(id), env'.Series(id);
    SameView(env, env', d, id);
    HistorySymmetric(d, a, b);
    hide SameRows, SameHistory, NextDate;
    var next, next' := NextDate(env, a, c), NextDate(env', b, c);
    if next.Some? && next.value <= d {
      NextWithin(env, env', c, d, a, b);
    }
    if next'.Some? && next'.value <= d {
      NextWithin(env', env, c, d, b, a);
    }
    NextStays(env, a, c, d);
    NextStays(env', b, c, d);
  }
}
