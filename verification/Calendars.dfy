/** The trading calendar of a run: the sorted union of all in-window session dates. */
module Calendars {
  import opened MarketData
  import opened Invariants

  predicate InWindow(d: int, lo: int, hi: int) {
    lo <= d <= hi
  }

  predicate HasWindowDate(s: Stock, lo: int, hi: int) {
    exists d :: d in s.dates && InWindow(d, lo, hi)
  }

  /** Stocks without a session in the window take no part. */
  function Eligible(universe: seq<Stock>, lo: int, hi: int): (r: seq<Stock>)
    ensures forall s :: s in r <==> s in universe && HasWindowDate(s, lo, hi)
  {
    if universe == [] then []
    else if HasWindowDate(universe[0], lo, hi) then [universe[0]] + Eligible(universe[1..], lo, hi)
    else Eligible(universe[1..], lo, hi)
  }

  lemma {:induction false} EligibleDistinct(universe: seq<Stock>, lo: int, hi: int)
    requires DistinctIds(universe)
    ensures DistinctIds(Eligible(universe, lo, hi))
  {
    if universe != [] {
      EligibleDistinct(universe[1..], lo, hi);
      var rest := Eligible(universe[1..], lo, hi);
      assert forall i :: 0 <= i < |rest| ==> rest[i] in rest;
      assert forall s :: s in rest ==> s.id != universe[0].id;
    }
  }

  /** The inputs with the stocks that take part in the run. */
  function Prepared(raw: Env): Env {
    EligibleDistinct(raw.universe, raw.startDate, raw.endDate);
    raw.(universe := Eligible(raw.universe, raw.startDate, raw.endDate))
  }

  lemma {:induction false} PutBefore(d: int, cal: seq<int>)
    requires StrictlyIncreasing(cal) && forall x :: x in cal ==> d < x
    ensures StrictlyIncreasing([d] + cal)
  {
    var r := [d] + cal;
    forall i, j | 0 <= i < j < |r| ensures r[i] < r[j] {
      assert r[j] == cal[j - 1] && cal[j - 1] in cal;
    }
  }

  lemma {:induction false} FirstIsLeast(cal: seq<int>)
    requires StrictlyIncreasing(cal) && cal != []
    ensures forall x :: x in cal[1..] ==> cal[0] < x
    ensures StrictlyIncreasing(cal[1..])
  {
  }

  lemma {:induction false} InsertedIncreasing(cal: seq<int>, d: int, rest: seq<int>)
    requires StrictlyIncreasing(cal) && cal != [] && cal[0] < d
    requires StrictlyIncreasing(rest) && forall x :: x in rest <==> x in cal[1..] || x == d
    ensures StrictlyIncreasing([cal[0]] + rest)
  {
    FirstIsLeast(cal);
    PutBefore(cal[0], rest);
  }

  lemma {:induction false} SmallerFirst(d: int, cal: seq<int>)
    requires StrictlyIncreasing(cal) && cal != [] && d < cal[0]
    ensures StrictlyIncreasing([d] + cal)
  {
    FirstIsLeast(cal);
    PutBefore(d, cal);
  }

  function InsertDate(cal: seq<int>, d: int): (r: seq<int>)
    ensures forall x :: x in r <==> x in cal || x == d
    ensures StrictlyIncreasing(cal) ==> StrictlyIncreasing(r)
  {
    if cal == [] then [d]
    else if d < cal[0] then
      assert StrictlyIncreasing(cal) ==> StrictlyIncreasing([d] + cal) by {
        if StrictlyIncreasing(cal) {
          SmallerFirst(d, cal);
        }
      }
      [d] + cal
    else if d == cal[0] then cal
    else
      var rest := InsertDate(cal[1..], d);
      assert StrictlyIncreasing(cal) ==> StrictlyIncreasing([cal[0]] + rest) by {
        if StrictlyIncreasing(cal) {
          FirstIsLeast(cal);
          InsertedIncreasing(cal, d, rest);
        }
      }
      [cal[0]] + rest
  }

  function InsertWindow(cal: seq<int>, dates: seq<int>, lo: int, hi: int): (r: seq<int>)
    ensures forall x :: x in r <==> x in cal || (x in dates && InWindow(x, lo, hi))
    ensures StrictlyIncreasing(cal) ==> StrictlyIncreasing(r)
  {
    if dates == [] then cal
    else
      var before := InsertWindow(cal, dates[..|dates| - 1], lo, hi);
      var last := dates[|dates| - 1];
      assert forall x :: x in dates <==> x in dates[..|dates| - 1] || x == last;
      if InWindow(last, lo, hi) then InsertDate(before, last) else before
  }

  function Calendar(universe: seq<Stock>, lo: int, hi: int): (cal: seq<int>)
    ensures StrictlyIncreasing(cal)
    ensures forall x :: x in cal <==> exists s :: s in universe && x in s.dates && InWindow(x, lo, hi)
  {
    if universe == [] then []
    else
      var before := Calendar(universe[..|universe| - 1], lo, hi);
      var last := universe[|universe| - 1];
      assert forall s :: s in universe <==> s in universe[..|universe| - 1] || s == last;
      InsertWindow(before, last.dates, lo, hi)
  }

  function DaysOf(env: Env): seq<int> {
    Calendar(env.universe, env.startDate, env.endDate)
  }

  /** The last day processed after `k` days; before the first day, the eve of the window. */
  function Through(env: Env, days: seq<int>, k: nat): int
    requires k <= |days|
  {
    if k == 0 then env.startDate - 1 else days[k - 1]
  }

  /** The calendar skips no session of any stock. */
  lemma {:induction false} NothingSkipped(env: Env, k: nat)
    requires k < |DaysOf(env)|
    ensures Consecutive(env, Through(env, DaysOf(env), k), DaysOf(env)[k])
    ensures env.startDate <= DaysOf(env)[k] <= env.endDate
  {
    var cal := DaysOf(env);
    var t, d := Through(env, cal, k), cal[k];
    assert d in cal;
    if 0 < k {
      assert cal[k - 1] in cal;
    }
    forall s, i | s in env.universe && 0 <= i < |s.dates| && t < s.dates[i]
      ensures d <= s.dates[i]
    {
      var x := s.dates[i];
      if x <= env.endDate {
        assert x in s.dates && InWindow(x, env.startDate, env.endDate);
        NothingBetween(cal, k, x);
      }
    }
  }

  lemma {:induction false} NothingBetween(cal: seq<int>, k: nat, x: int)
    requires StrictlyIncreasing(cal) && k < |cal| && x in cal
    ensures cal[k] <= x || (0 < k && x <= cal[k - 1])
  {
    var j :| 0 <= j < |cal| && cal[j] == x;
  }

  /** Strictly increasing sequences with the same elements are equal. */
  lemma {:induction false} SortedUnique(a: seq<int>, b: seq<int>)
    requires StrictlyIncreasing(a) && StrictlyIncreasing(b)
    requires forall x :: x in a <==> x in b
    ensures a == b
  {
    if a == [] {
      assert b == [] by {
        assert forall i :: 0 <= i < |b| ==> b[i] in b;
      }
    } else {
      assert a[0] in b && b[0] in a;
      assert a[0] == b[0];
      forall x ensures x in a[1..] <==> x in b[1..] {
        assert x in a[1..] <==> x in a && x != a[0];
        assert x in b[1..] <==> x in b && x != b[0];
      }
      SortedUnique(a[1..], b[1..]);
    }
  }
}
