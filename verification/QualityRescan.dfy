/** The scan over all stocks and the rewrite of the stored quality flags. */
module QualityRescan {
  import opened Numbers
  import opened QualityFlags
  import opened QualityScan

  datatype Report = Report(stocksScanned: nat, rowsScanned: nat, rowsFlagged: nat, flagCounts: map<Flag, nat>,
                           gapsFound: nat, gaps: seq<Gap>, rowsUpdated: nat)

  ghost predicate DistinctHistories(histories: seq<seq<PriceRow>>) {
    && (forall s :: 0 <= s < |histories| ==> DistinctRows(histories[s]))
    && forall s, t, i, j :: 0 <= s < t < |histories| && 0 <= i < |histories[s]| && 0 <= j < |histories[t]|
                            ==> histories[s][i].id != histories[t][j].id
  }

  // ---- Totals over the first `n` stocks ----

  ghost function TotalOf(histories: seq<seq<PriceRow>>, n: nat, f: Flag): nat
    requires n <= |histories|
  {
    if n == 0 then 0
    else TotalOf(histories, n - 1, f) + CountIf(|histories[n - 1]|, HasFlag(histories[n - 1], f))
  }

  ghost function TotalFlagged(histories: seq<seq<PriceRow>>, n: nat): nat
    requires n <= |histories|
  {
    if n == 0 then 0
    else TotalFlagged(histories, n - 1) + CountIf(|histories[n - 1]|, HasAnyFlag(histories[n - 1]))
  }

  function TotalRows(histories: seq<seq<PriceRow>>, n: nat): nat
    requires n <= |histories|
  {
    if n == 0 then 0 else TotalRows(histories, n - 1) + |histories[n - 1]|
  }

  function AllGaps(histories: seq<seq<PriceRow>>, n: nat): seq<Gap>
    requires n <= |histories|
  {
    if n == 0 then [] else AllGaps(histories, n - 1) + GapsUpTo(histories[n - 1], |histories[n - 1]|)
  }

  /** The number of reported gaps is the number of rows flagged for a gap. */
  lemma {:induction false} GapTotals(histories: seq<seq<PriceRow>>, n: nat)
    requires n <= |histories|
    ensures |AllGaps(histories, n)| == TotalOf(histories, n, GapBefore)
  {
    hide GapsUpTo, CountIf;
    if 0 < n {
      GapTotals(histories, n - 1);
      GapsAreFlagged(histories[n - 1], |histories[n - 1]|);
    }
  }

  /** `total_counts.update(counts)`. */
  function AddCounts(a: map<Flag, nat>, b: map<Flag, nat>): (c: map<Flag, nat>)
    ensures forall f :: CountOf(c, f) == CountOf(a, f) + CountOf(b, f)
  {
    map f | f in a.Keys + b.Keys :: CountOf(a, f) + CountOf(b, f)
  }

  /** The stored flags of a stock's rows are exactly what its history calls for. */
  ghost predicate Current(stored: map<int, seq<Flag>>, rows: seq<PriceRow>) {
    forall k :: 0 <= k < |rows| ==> ListedFlags(stored, rows[k].id) == Sorted(FlagsOf(rows, k))
  }

  ghost predicate AllCurrent(stored: map<int, seq<Flag>>, histories: seq<seq<PriceRow>>) {
    forall s :: 0 <= s < |histories| ==> Current(stored, histories[s])
  }

  predicate IsRowOf(rows: seq<PriceRow>, id: int) {
    exists k :: 0 <= k < |rows| && rows[k].id == id
  }

  /** `after` differs from `before` at most on the given rows. */
  ghost predicate OnlyRewrites(rows: seq<PriceRow>, before: map<int, seq<Flag>>, after: map<int, seq<Flag>>) {
    forall id :: !IsRowOf(rows, id) ==> ListedFlags(after, id) == ListedFlags(before, id)
  }

  lemma {:induction false} CurrentElsewhere(histories: seq<seq<PriceRow>>, s: nat, t: nat, before: map<int,
                                            seq<Flag>>, after: map<int, seq<Flag>>)
    requires DistinctHistories(histories) && s < |histories| && t < |histories| && s != t
    requires OnlyRewrites(histories[s], before, after)
    ensures Current(after, histories[t]) <==> Current(before, histories[t])
  {
    hide FlagsOf, Sorted, ListedFlags;
    forall k | 0 <= k < |histories[t]|
      ensures ListedFlags(after, histories[t][k].id) == ListedFlags(before, histories[t][k].id)
    {
      assert !IsRowOf(histories[s], histories[t][k].id);
    }
  }

  /** The rows whose stored flags differ from what the history calls for. */
  ghost function Outdated(stored: map<int, seq<Flag>>, rows: seq<PriceRow>): nat -> bool {
    (k: nat) => k < |rows| && ListedFlags(stored, rows[k].id) != Sorted(FlagsOf(rows, k))
  }

  ghost function TotalOutdated(stored: map<int, seq<Flag>>, histories: seq<seq<PriceRow>>, n: nat): nat
    requires n <= |histories|
  {
    if n == 0 then 0
    else TotalOutdated(stored, histories, n - 1) + CountIf(|histories[n - 1]|, Outdated(stored, histories[n - 1]))
  }

  /** The two tables list the same flags for the rows. */
  ghost predicate SameFlags(a: map<int, seq<Flag>>, b: map<int, seq<Flag>>, rows: seq<PriceRow>) {
    forall k :: 0 <= k < |rows| ==> ListedFlags(a, rows[k].id) == ListedFlags(b, rows[k].id)
  }

  lemma {:induction false} SameOutdated(a: map<int, seq<Flag>>, b: map<int, seq<Flag>>, rows: seq<PriceRow>, n: nat)
    requires SameFlags(a, b, rows) && n <= |rows|
    ensures CountIf(n, Outdated(a, rows)) == CountIf(n, Outdated(b, rows))
  {
    hide ListedFlags, Sorted, FlagsOf, CountIf;
    SameCounts(n, Outdated(a, rows), Outdated(b, rows));
  }

  lemma {:induction false} SameCounts(n: nat, p: nat -> bool, q: nat -> bool)
    requires forall k: nat :: k < n ==> p(k) == q(k)
    ensures CountIf(n, p) == CountIf(n, q)
  {
    if 0 < n {
      SameCounts(n - 1, p, q);
    }
  }

  lemma {:induction false} SameElsewhere(histories: seq<seq<PriceRow>>, s: nat, t: nat, before: map<int, seq<Flag>>,
                                         after: map<int, seq<Flag>>)
    requires DistinctHistories(histories) && s < |histories| && t < |histories| && s != t
    requires OnlyRewrites(histories[s], before, after)
    ensures SameFlags(after, before, histories[t])
  {
    hide ListedFlags;
    forall k | 0 <= k < |histories[t]|
      ensures ListedFlags(after, histories[t][k].id) == ListedFlags(before, histories[t][k].id)
    {
      assert !IsRowOf(histories[s], histories[t][k].id);
    }
  }

  class PriceTable {
    const histories: seq<seq<PriceRow>>
    /** The stored `quality_flags` by row id; a row never written has the default empty list. */
    var qualityFlags: map<int, seq<Flag>>

    constructor (histories: seq<seq<PriceRow>>, qualityFlags: map<int, seq<Flag>>)
      ensures this.histories == histories && this.qualityFlags == qualityFlags
    {
      this.histories := histories;
      this.qualityFlags := qualityFlags;
    }

    /** Rewrites the flags of one row if they differ. */
    method StoreRow(id: int, newFlags: seq<Flag>) returns (updated: bool)
      modifies this
      ensures ListedFlags(qualityFlags, id) == newFlags
      ensures forall x :: x != id ==> ListedFlags(qualityFlags, x) == ListedFlags(old(qualityFlags), x)
      ensures updated <==> ListedFlags(old(qualityFlags), id) != newFlags
      ensures !updated ==> qualityFlags == old(qualityFlags)
    {
      updated := ListedFlags(qualityFlags, id) != newFlags;
      if updated {
        qualityFlags := qualityFlags[id := newFlags];
      }
    }

    /** Rewrites the flags of one stock's rows, touching only rows whose flags differ. */
    method StoreFlags(rows: seq<PriceRow>, flagsById: map<int, seq<Flag>>) returns (updated: nat)
      requires DistinctRows(rows) && Current(flagsById, rows)
      modifies this
      ensures Current(qualityFlags, rows) && OnlyRewrites(rows, old(qualityFlags), qualityFlags)
      ensures updated == 0 <==> old(Current(qualityFlags, rows))
      ensures updated == CountIf(|rows|, Outdated(old(qualityFlags), rows))
      ensures updated == 0 ==> qualityFlags == old(qualityFlags)
    {
      hide FlagsOf, Sorted, ListedFlags;
      updated := 0;
      for i := 0 to |rows|
        invariant forall k :: 0 <= k < i ==> ListedFlags(qualityFlags, rows[k].id) == Sorted(FlagsOf(rows, k))
        invariant forall k :: i <= k < |rows|
                              ==> ListedFlags(qualityFlags, rows[k].id) == ListedFlags(old(qualityFlags), rows[k].id)
        invariant OnlyRewrites(rows, old(qualityFlags), qualityFlags)
        invariant updated == 0 <==> forall k :: 0 <= k < i ==> ListedFlags(old(qualityFlags), rows[k].id)
                                                               == Sorted(FlagsOf(rows, k))
        invariant updated == 0 ==> qualityFlags == old(qualityFlags)
        invariant updated == CountIf(i, Outdated(old(qualityFlags), rows))
      {
        var changed := StoreRow(rows[i].id, ListedFlags(flagsById, rows[i].id));
        if changed {
          updated := updated + 1;
        }
      }
    }

    /** `run_quality_scan`. */
    method RunQualityScan(maxGapsReported: nat) returns (report: Report)
      requires DistinctHistories(histories)
      modifies this
      ensures AllCurrent(qualityFlags, histories)
      ensures report.rowsUpdated == 0 <==> old(AllCurrent(qualityFlags, histories))
      ensures report.rowsUpdated == 0 ==> qualityFlags == old(qualityFlags)
      ensures report.rowsUpdated == TotalOutdated(old(qualityFlags), histories, |histories|)
      ensures ReportOn(histories, maxGapsReported, report)
    {
      hide Current, OnlyRewrites, CountIf, HasFlag, HasAnyFlag, GapsUpTo, DistinctRows, FlagsOf, Sorted, Outdated,
           SameFlags, DistinctHistories, ScanOf, ListedFlags, AddCounts;
      SameToStart(qualityFlags, histories);
      var counts: map<Flag, nat> := map[];
      var gaps: seq<Gap> := [];
      var rowsScanned, rowsFlagged, updated := 0, 0, 0;
      for s := 0 to |histories|
        invariant forall t :: 0 <= t < s ==> Current(qualityFlags, histories[t])
        invariant updated == 0 <==> forall t :: 0 <= t < s ==> Current(old(qualityFlags), histories[t])
        invariant updated == 0 ==> qualityFlags == old(qualityFlags)
        invariant forall t :: s <= t < |histories| ==> SameFlags(qualityFlags, old(qualityFlags), histories[t])
        invariant updated == TotalOutdated(old(qualityFlags), histories, s)
        invariant rowsScanned == TotalRows(histories, s) && rowsFlagged == TotalFlagged(histories, s)
        invariant forall f :: CountOf(counts, f) == TotalOf(histories, s, f)
        invariant gaps == AllGaps(histories, s)
      {
        HistoryDistinct(histories, s);
        var scan := ScanStock(histories[s]);
        ScanTotals(histories[s], scan);
        rowsScanned := rowsScanned + |histories[s]|;
        counts := AddCounts(counts, scan.counts);
        gaps := gaps + scan.gaps;
        ghost var before := qualityFlags;
        ScanIsCurrent(histories[s], scan);
        SameRows(before, old(qualityFlags), histories[s]);
        var n := StoreFlags(histories[s], scan.flagsById);
        updated := updated + n;
        rowsFlagged := rowsFlagged + |scan.flagsById|;
        KeptElsewhere(histories, s, old(qualityFlags), before, qualityFlags);
      }
      GapTotals(histories, |histories|);
      report := Report(|histories|, rowsScanned, rowsFlagged, counts, |gaps|,
                       gaps[..Min(maxGapsReported, |gaps|)], updated);
    }

    /** Two scans of unchanged prices in a row: the second finds the same and writes nothing. */
    method ScanTwice(maxGapsReported: nat) returns (first: Report, second: Report)
      requires DistinctHistories(histories)
      modifies this
      ensures second.rowsUpdated == 0
      ensures forall f :: CountOf(second.flagCounts, f) == CountOf(first.flagCounts, f)
      ensures second.gaps == first.gaps
    {
      hide AllCurrent, DistinctHistories, TotalOf, CountOf;
      first := RunQualityScan(maxGapsReported);
      second := RunQualityScan(maxGapsReported);
    }
  }

  lemma {:induction false} SameToStart(stored: map<int, seq<Flag>>, histories: seq<seq<PriceRow>>)
    ensures forall t :: 0 <= t < |histories| ==> SameFlags(stored, stored, histories[t])
  {
  }

  lemma {:induction false} SameChain(a: map<int, seq<Flag>>, b: map<int, seq<Flag>>, c: map<int, seq<Flag>>,
                                     rows: seq<PriceRow>)
    requires SameFlags(a, b, rows) && SameFlags(b, c, rows)
    ensures SameFlags(a, c, rows)
  {
    hide ListedFlags;
  }

  lemma {:induction false} HistoryDistinct(histories: seq<seq<PriceRow>>, s: nat)
    requires DistinctHistories(histories) && s < |histories|
    ensures DistinctRows(histories[s])
  {
    hide DistinctRows;
  }

  lemma {:induction false} ScanTotals(rows: seq<PriceRow>, scan: Scan)
    requires ScanOf(rows, scan)
    ensures forall f :: CountOf(scan.counts, f) == CountIf(|rows|, HasFlag(rows, f))
    ensures scan.gaps == GapsUpTo(rows, |rows|) && |scan.flagsById| == CountIf(|rows|, HasAnyFlag(rows))
  {
    hide HasFlag, HasAnyFlag, CountIf, GapsUpTo, GapsListed, ListedFlags, Sorted, FlagsOf;
  }

  lemma {:induction false} SameRows(a: map<int, seq<Flag>>, b: map<int, seq<Flag>>, rows: seq<PriceRow>)
    requires SameFlags(a, b, rows)
    ensures Current(a, rows) <==> Current(b, rows)
    ensures CountIf(|rows|, Outdated(a, rows)) == CountIf(|rows|, Outdated(b, rows))
  {
    hide ListedFlags, Sorted, FlagsOf, CountIf, Outdated;
    SameOutdated(a, b, rows, |rows|);
  }

  /** Writing the flags of stock `s` leaves the stocks before it current and those after it as at the start. */
  lemma {:induction false} KeptElsewhere(histories: seq<seq<PriceRow>>, s: nat, start: map<int, seq<Flag>>,
                                         before: map<int, seq<Flag>>, after: map<int, seq<Flag>>)
    requires DistinctHistories(histories) && s < |histories| && OnlyRewrites(histories[s], before, after)
    requires forall t :: 0 <= t < s ==> Current(before, histories[t])
    requires forall t :: s <= t < |histories| ==> SameFlags(before, start, histories[t])
    ensures forall t :: 0 <= t < s ==> Current(after, histories[t])
    ensures forall t :: s < t < |histories| ==> SameFlags(after, start, histories[t])
  {
    hide Current, OnlyRewrites, SameFlags, DistinctHistories;
    forall t | 0 <= t < s ensures Current(after, histories[t]) {
      CurrentElsewhere(histories, s, t, before, after);
    }
    forall t | s < t < |histories| ensures SameFlags(after, start, histories[t]) {
      SameElsewhere(histories, s, t, before, after);
      SameChain(after, before, start, histories[t]);
    }
  }

  lemma {:induction false} ScanIsCurrent(rows: seq<PriceRow>, scan: Scan)
    requires ScanOf(rows, scan)
    ensures Current(scan.flagsById, rows)
  {
    hide FlagsOf, Sorted;
  }

  /** Totals, counters and gaps all tell the same story as the flags of the rows. */
  ghost predicate ReportOn(histories: seq<seq<PriceRow>>, maxGapsReported: nat, report: Report) {
    && report.stocksScanned == |histories| && report.rowsScanned == TotalRows(histories, |histories|)
    && report.rowsFlagged == TotalFlagged(histories, |histories|)
    && (forall f :: CountOf(report.flagCounts, f) == TotalOf(histories, |histories|, f))
    && report.gapsFound == |AllGaps(histories, |histories|)| == CountOf(report.flagCounts, GapBefore)
    && report.gaps == AllGaps(histories, |histories|)[..Min(maxGapsReported, report.gapsFound)]
  }
}
