/** Performance by group: grouping splits the trades without losing or repeating any. */
module Breakdown {
  import opened Numbers
  import opened Engine
  import opened Invariants

  const MIN_SAMPLE_FOR_BREAKDOWN := 20

  datatype Entry = Entry(trades: nat, winRate: real, avgReturnPct: real, totalNetPnl: real, smallSample: bool)

  /** The trades with key `k`, in order. */
  function WithKey<K(==)>(trades: seq<Trade>, key: Trade -> K, k: K): (r: seq<Trade>)
    ensures forall tr :: tr in r <==> tr in trades && key(tr) == k
  {
    if trades == [] then []
    else
      var last := trades[|trades| - 1];
      WithKey(trades[..|trades| - 1], key, k) + (if key(last) == k then [last] else [])
  }

  function CountWins(trades: seq<Trade>): (n: nat)
    ensures n <= |trades|
  {
    if trades == [] then 0
    else CountWins(trades[..|trades| - 1]) + (if trades[|trades| - 1].net > 0.0 then 1 else 0)
  }

  function SumReturns(trades: seq<Trade>): real {
    if trades == [] then 0.0 else SumReturns(trades[..|trades| - 1]) + trades[|trades| - 1].returnPct
  }

  function EntryOf(ts: seq<Trade>): Entry
    requires ts != []
  {
    Entry(|ts|, RoundTo(CountWins(ts) as real / |ts| as real, 10000.0), RoundTo(SumReturns(ts) / |ts| as real, 1000.0),
          RoundTo(SumNet(ts), 100.0), |ts| < MIN_SAMPLE_FOR_BREAKDOWN)
  }

  /** The winning trades, by their places. */
  ghost function Wins(ts: seq<Trade>): set<int> {
    set i | 0 <= i < |ts| && 0.0 < ts[i].net
  }

  lemma {:induction false} WinsCounted(ts: seq<Trade>)
    ensures CountWins(ts) == |Wins(ts)|
  {
    if ts != [] {
      var n := |ts| - 1;
      WinsCounted(ts[..n]);
      assert Wins(ts) == Wins(ts[..n]) + (if 0.0 < ts[n].net then {n} else {});
    }
  }

  /** The sums are those of the parts, down to a single trade. */
  lemma {:induction false} SumsAdd(a: seq<Trade>, b: seq<Trade>)
    ensures SumReturns(a + b) == SumReturns(a) + SumReturns(b) && SumNet(a + b) == SumNet(a) + SumNet(b)
    ensures |b| == 1 ==> SumReturns(b) == b[0].returnPct && SumNet(b) == b[0].net
  {
    if b == [] {
      assert a + b == a;
    } else {
      SumsAdd(a, b[..|b| - 1]);
      assert (a + b)[..|a + b| - 1] == a + b[..|b| - 1];
    }
  }

  /** A rounded quotient, times its divisor, misses the dividend by at most half a unit per divisor. */
  lemma {:induction false} RoundedShare(r: real, x: real, n: real, scale: real, half: real)
    requires 0.0 < n && 0.0 < scale && half * scale == 0.5 && r == RoundTo(x / n, scale)
    ensures Abs(r * n - x) <= half * n
  {
    HalfAtMost(r, x / n, scale, half);
    hide *;
    var e := r - x / n;
    ScaledError(e, n);
    ScaleLess(Abs(e), half, n);
    Missed(r, x, n);
  }

  lemma {:induction false} HalfAtMost(r: real, q: real, scale: real, half: real)
    requires 0.0 < scale && half * scale == 0.5 && r == RoundTo(q, scale)
    ensures Abs(r - q) <= half
  {
    var e := Abs(r - q);
    assert e * scale <= 0.5;
    hide RoundTo, Abs;
    if half < e {
      ScaleLess(half, e, scale);
    }
  }

  lemma {:induction false} Missed(r: real, x: real, n: real)
    requires 0.0 < n
    ensures r * n - x == (r - x / n) * n
  {
    DivideMultiply(x, n);
    var q := x / n;
    assert (r - q) * n == r * n - q * n;
  }

  lemma {:induction false} ScaledError(e: real, n: real)
    requires 0.0 < n
    ensures Abs(e * n) == Abs(e) * n
  {
    ScaleLess(e, 0.0, n);
    ScaleLess(0.0, e, n);
  }

  /** The win rate, to four places, is the share of trades with a positive net profit. */
  ghost predicate WinRateRight(e: Entry, ts: seq<Trade>) {
    Abs(e.winRate * |ts| as real - |Wins(ts)| as real) <= 0.00005 * |ts| as real
  }

  /** The average return, to three places, is the sum of the returns over the number of trades. */
  ghost predicate AverageRight(e: Entry, ts: seq<Trade>) {
    Abs(e.avgReturnPct * |ts| as real - SumReturns(ts)) <= 0.0005 * |ts| as real
  }

  lemma {:induction false} WinRateFormula(ts: seq<Trade>)
    requires ts != []
    ensures EntryOf(ts).winRate == RoundTo(|Wins(ts)| as real / |ts| as real, 10000.0)
  {
    hide RoundTo, Wins, CountWins, SumReturns, SumNet, Abs;
    WinsCounted(ts);
  }

  lemma {:induction false} WinRateIs(ts: seq<Trade>)
    requires ts != []
    ensures WinRateRight(EntryOf(ts), ts)
  {
    hide EntryOf, RoundTo, Wins;
    WinRateFormula(ts);
    RoundedShare(EntryOf(ts).winRate, |Wins(ts)| as real, |ts| as real, 10000.0, 0.00005);
  }

  lemma {:induction false} AverageFormula(ts: seq<Trade>)
    requires ts != []
    ensures EntryOf(ts).avgReturnPct == RoundTo(SumReturns(ts) / |ts| as real, 1000.0)
  {
    hide RoundTo, CountWins, SumReturns, SumNet, Abs;
  }

  lemma {:induction false} AverageIs(ts: seq<Trade>)
    requires ts != []
    ensures AverageRight(EntryOf(ts), ts)
  {
    hide EntryOf, RoundTo, SumReturns;
    AverageFormula(ts);
    RoundedShare(EntryOf(ts).avgReturnPct, SumReturns(ts), |ts| as real, 1000.0, 0.0005);
  }

  lemma {:induction false} TotalIs(ts: seq<Trade>)
    requires ts != []
    ensures Abs(EntryOf(ts).totalNetPnl - SumNet(ts)) <= 0.005
  {
    assert Abs(RoundTo(SumNet(ts), 100.0) - SumNet(ts)) * 100.0 <= 0.5;
    hide RoundTo, SumNet, CountWins, SumReturns;
  }

  /** `e` tells the numbers of the trades `ts`, with a total to the cent and a mark below twenty of them. */
  ghost predicate Truthful(e: Entry, ts: seq<Trade>) {
    && e.trades == |ts| && (e.smallSample <==> |ts| < 20)
    && WinRateRight(e, ts) && AverageRight(e, ts)
    && Abs(e.totalNetPnl - SumNet(ts)) <= 0.005
  }

  lemma {:induction false} EntryIsTruthful(ts: seq<Trade>)
    requires ts != []
    ensures Truthful(EntryOf(ts), ts)
  {
    assert EntryOf(ts).trades == |ts| && (EntryOf(ts).smallSample <==> |ts| < 20);
    hide EntryOf, SumNet, WinRateRight, AverageRight;
    WinRateIs(ts);
    AverageIs(ts);
    TotalIs(ts);
  }

  /** `setdefault(key, []).append(t)` over all trades. */
  method Group<K(==)>(trades: seq<Trade>, key: Trade -> K) returns (groups: map<K, seq<Trade>>)
    ensures forall k :: k in groups <==> exists tr :: tr in trades && key(tr) == k
    ensures forall k :: k in groups ==> groups[k] == WithKey(trades, key, k) && groups[k] != []
  {
    groups := map[];
    for i := 0 to |trades|
      invariant forall k :: Listed(groups, k) == WithKey(trades[..i], key, k)
      invariant forall k :: k in groups ==> groups[k] != []
    {
      var k := key(trades[i]);
      ghost var before := groups;
      groups := groups[k := Listed(groups, k) + [trades[i]]];
      forall other ensures Listed(groups, other) == WithKey(trades[..i + 1], key, other) {
        WithKeyNext(trades, key, i, other);
        assert Listed(before, other) == WithKey(trades[..i], key, other);
        assert Listed(before, other) + [] == Listed(before, other);
      }
    }
    assert trades[..|trades|] == trades;
    forall k ensures k in groups <==> exists tr :: tr in trades && key(tr) == k {
      KeyOccurs(trades, key, k);
      assert Listed(groups, k) == WithKey(trades, key, k);
    }
  }

  function Listed<K(==)>(groups: map<K, seq<Trade>>, k: K): seq<Trade> {
    if k in groups then groups[k] else []
  }

  lemma {:induction false} WithKeyNext<K>(trades: seq<Trade>, key: Trade -> K, i: nat, k: K)
    requires i < |trades|
    ensures WithKey(trades[..i + 1], key, k)
            == WithKey(trades[..i], key, k) + (if key(trades[i]) == k then [trades[i]] else [])
  {
    assert trades[..i + 1][..i] == trades[..i];
  }

  lemma {:induction false} KeyOccurs<K>(trades: seq<Trade>, key: Trade -> K, k: K)
    ensures WithKey(trades, key, k) != [] <==> exists tr :: tr in trades && key(tr) == k
  {
    var group := WithKey(trades, key, k);
    if group != [] {
      assert group[0] in group;
    }
  }

  method BreakdownBy<K(==)>(trades: seq<Trade>, key: Trade -> K) returns (out: map<K, Entry>)
    ensures forall k :: k in out <==> exists tr :: tr in trades && key(tr) == k
    ensures forall k :: k in out ==> WithKey(trades, key, k) != [] && out[k] == EntryOf(WithKey(trades, key, k))
    ensures forall k :: k in out ==> Truthful(out[k], WithKey(trades, key, k))
  {
    hide Truthful, EntryOf;
    var groups := Group(trades, key);
    out := map k | k in groups :: EntryOf(groups[k]);
    forall k | k in out ensures Truthful(out[k], WithKey(trades, key, k)) {
      EntryIsTruthful(groups[k]);
    }
  }

  // ---- Nothing is lost ----

  ghost predicate Distinct<K>(ks: seq<K>) {
    forall i, j :: 0 <= i < j < |ks| ==> ks[i] != ks[j]
  }

  /** Total size of the groups listed in `ks`. */
  function SizesOf<K(==)>(trades: seq<Trade>, key: Trade -> K, ks: seq<K>): nat {
    if ks == [] then 0 else |WithKey(trades, key, ks[0])| + SizesOf(trades, key, ks[1..])
  }

  function NetsOf<K(==)>(trades: seq<Trade>, key: Trade -> K, ks: seq<K>): real {
    if ks == [] then 0.0 else SumNet(WithKey(trades, key, ks[0])) + NetsOf(trades, key, ks[1..])
  }

  /** One more trade enters exactly one of the listed groups if its key is listed, and none otherwise. */
  lemma {:induction false} OneMore<K>(trades: seq<Trade>, key: Trade -> K, ks: seq<K>)
    requires trades != [] && Distinct(ks)
    ensures var last, before := trades[|trades| - 1], trades[..|trades| - 1];
            && SizesOf(trades, key, ks) == SizesOf(before, key, ks) + (if key(last) in ks then 1 else 0)
            && NetsOf(trades, key, ks) == NetsOf(before, key, ks) + (if key(last) in ks then last.net else 0.0)
  {
    if ks != [] {
      var last, before := trades[|trades| - 1], trades[..|trades| - 1];
      OneMore(trades, key, ks[1..]);
      if key(last) == ks[0] {
        assert forall i :: 0 <= i < |ks[1..]| ==> ks[1..][i] != ks[0];
        var group := WithKey(before, key, ks[0]);
        assert (group + [last])[..|group|] == group;
        assert WithKey(trades, key, ks[0]) == group + [last];
      } else {
        assert WithKey(trades, key, ks[0]) == WithKey(before, key, ks[0]);
        assert key(last) in ks <==> key(last) in ks[1..];
      }
    }
  }

  /** Listing every key once, the groups add up to all trades and to the whole net profit. */
  lemma {:induction false} GroupsPartition<K>(trades: seq<Trade>, key: Trade -> K, ks: seq<K>)
    requires Distinct(ks) && forall tr :: tr in trades ==> key(tr) in ks
    ensures SizesOf(trades, key, ks) == |trades|
    ensures NetsOf(trades, key, ks) == SumNet(trades)
  {
    if trades == [] {
      EmptyGroups(key, ks);
    } else {
      var before := trades[..|trades| - 1];
      assert forall tr :: tr in before ==> tr in trades;
      assert trades[|trades| - 1] in trades;
      GroupsPartition(before, key, ks);
      OneMore(trades, key, ks);
    }
  }

  lemma {:induction false} EmptyGroups<K>(key: Trade -> K, ks: seq<K>)
    ensures SizesOf([], key, ks) == 0 && NetsOf([], key, ks) == 0.0
  {
    if ks != [] {
      EmptyGroups(key, ks[1..]);
    }
  }
}
