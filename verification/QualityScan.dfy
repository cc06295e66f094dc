/** The one-pass scan of a stock's history, and the rewrite of the stored flags it drives. */
module QualityScan {
  import opened Numbers
  import opened QualityFlags

  ghost predicate NoRepeats<T>(s: seq<T>) {
    forall i, j :: 0 <= i < j < |s| ==> s[i] != s[j]
  }

  lemma {:induction false} Appended<T>(s: seq<T>, x: T)
    requires NoRepeats(s) && x !in s
    ensures NoRepeats(s + [x])
  {
    assert forall i :: 0 <= i < |s| ==> s[i] in s;
  }

  /** `validate_ohlcv`: every violated rule of one bar, once. */
  method ValidateOhlcv(bar: Bar) returns (flags: seq<Flag>)
    ensures forall f :: f in flags <==> Violates(bar, f)
    ensures NoRepeats(flags)
    ensures flags == [] <==> Clean(bar)
  {
    CleanExactlyWhen(bar);
    hide Clean;
    flags := [];
    var named := [(NonPositiveOpen, bar.open), (NonPositiveHigh, bar.high), (NonPositiveLow, bar.low),
                  (NonPositiveClose, bar.close)];
    for i := 0 to |named|
      invariant forall f :: f in flags <==> exists j :: 0 <= j < i && named[j].0 == f && NotPositive(named[j].1)
      invariant NoRepeats(flags)
    {
      if NotPositive(named[i].1) {
        Appended(flags, named[i].0);
        flags := flags + [named[i].0];
      }
    }
    assert forall f :: f in flags <==> Violates(bar, f) && f in {NonPositiveOpen, NonPositiveHigh, NonPositiveLow,
                                                                 NonPositiveClose} by {
      assert named[0].0 == NonPositiveOpen && named[1].0 == NonPositiveHigh && named[2].0 == NonPositiveLow
             && named[3].0 == NonPositiveClose;
    }
    if bar.volume.Some? && bar.volume.value < 0 {
      Appended(flags, NegativeVolume);
      flags := flags + [NegativeVolume];
    }
    if RangeKnown(bar) {
      if bar.high.value < bar.low.value {
        Appended(flags, HighBelowLow);
        flags := flags + [HighBelowLow];
      } else {
        if Outside(bar, bar.open) {
          Appended(flags, OpenOutOfRange);
          flags := flags + [OpenOutOfRange];
        }
        if Outside(bar, bar.close) {
          Appended(flags, CloseOutOfRange);
          flags := flags + [CloseOutOfRange];
        }
      }
    }
    assert flags != [] ==> flags[0] in flags;
  }

  /** Everything one row earns from itself and its predecessor, and the gap before it if there is one. */
  method InspectRow(prev: Option<PriceRow>, row: PriceRow) returns (flags: seq<Flag>, gap: Option<Gap>)
    ensures forall f :: f in flags <==> f != StaleQuoteRun && LocalFlag(prev, row, f)
    ensures NoRepeats(flags)
    ensures gap.Some? <==> prev.Some? && row.date - prev.value.date > 10
    ensures gap.Some? ==> gap.value == Gap(prev.value.date, row.date, row.date - prev.value.date)
  {
    flags := ValidateOhlcv(row.AsBar());
    gap := None;
    if prev.Some? {
      var gapDays := row.date - prev.value.date;
      if gapDays > GAP_CALENDAR_DAYS {
        Appended(flags, GapBefore);
        flags := flags + [GapBefore];
        gap := Some(Gap(prev.value.date, row.date, gapDays));
      }
      if prev.value.close > 0.0 && row.close > 0.0 {
        var jump := Abs(row.close - prev.value.close) / prev.value.close * 100.0;
        if jump >= ABNORMAL_JUMP_PCT {
          Appended(flags, AbnormalJump);
          flags := flags + [AbnormalJump];
        }
      }
    }
  }

  function GapOf(prev: Option<PriceRow>, row: PriceRow): Option<Gap> {
    if prev.Some? && row.date - prev.value.date > GAP_CALENDAR_DAYS
    then Some(Gap(prev.value.date, row.date, row.date - prev.value.date))
    else None
  }

  /** The gaps before the first `n` rows, in order. */
  function GapsUpTo(rows: seq<PriceRow>, n: nat): seq<Gap>
    requires n <= |rows|
  {
    if n == 0 then []
    else
      var gap := GapOf(Before(rows, n - 1), rows[n - 1]);
      GapsUpTo(rows, n - 1) + (if gap.Some? then [gap.value] else [])
  }

  /** `gap` runs from the row before row `k` to row `k`: more than ten days. */
  ghost predicate Lapse(rows: seq<PriceRow>, k: int, gap: Gap) {
    && 0 < k < |rows|
    && gap.start == rows[k - 1].date && gap.end == rows[k].date
    && gap.daysMissing == rows[k].date - rows[k - 1].date && 10 < gap.daysMissing
  }

  ghost predicate Increasing(at: seq<int>) {
    forall i, j :: 0 <= i < j < |at| ==> at[i] < at[j]
  }

  /** Entry `i` of `gaps` is the lapse before row `at[i]`, and no lapse before one of the first `n` rows is left out. */
  ghost predicate GapsAt(rows: seq<PriceRow>, n: nat, gaps: seq<Gap>, at: seq<int>) {
    && |at| == |gaps| && Increasing(at)
    && (forall i :: 0 <= i < |at| ==> at[i] < n && Lapse(rows, at[i], gaps[i]))
    && forall k :: 0 < k < n && k < |rows| && rows[k].date - rows[k - 1].date > 10 ==> k in at
  }

  /** `gaps` lists the lapses before the first `n` rows: exactly these, and in row order. */
  ghost predicate GapsListed(rows: seq<PriceRow>, n: nat, gaps: seq<Gap>) {
    && (forall gap :: gap in gaps <==> exists k: nat :: k < n && Lapse(rows, k, gap))
    && exists at :: GapsAt(rows, n, gaps, at)
  }

  lemma {:induction false} GapsHave(rows: seq<PriceRow>, n: nat) returns (at: seq<int>)
    requires n <= |rows|
    ensures GapsAt(rows, n, GapsUpTo(rows, n), at)
  {
    if n == 0 {
      at := [];
    } else {
      at := GapsHave(rows, n - 1);
      var gap := GapOf(Before(rows, n - 1), rows[n - 1]);
      if gap.Some? {
        NextGap(rows, n - 1, GapsUpTo(rows, n - 1), at, gap.value);
        at := at + [n - 1];
      } else {
        assert GapsUpTo(rows, n) == GapsUpTo(rows, n - 1);
      }
    }
  }

  lemma {:induction false} NextGap(rows: seq<PriceRow>, k: nat, gaps: seq<Gap>, at: seq<int>, gap: Gap)
    requires GapsAt(rows, k, gaps, at) && Lapse(rows, k, gap)
    ensures GapsAt(rows, k + 1, gaps + [gap], at + [k])
  {
    hide Lapse;
    assert forall m :: m in at ==> m in at + [k];
    assert (at + [k])[|at|] == k;
  }

  /** The gaps of a history are its lapses of more than ten days, each once and in order. */
  lemma {:induction false} GapsAreLapses(rows: seq<PriceRow>, n: nat)
    requires n <= |rows|
    ensures GapsListed(rows, n, GapsUpTo(rows, n))
  {
    var gaps := GapsUpTo(rows, n);
    var at := GapsHave(rows, n);
    hide GapsUpTo;
    forall gap ensures gap in gaps <==> exists k: nat :: k < n && Lapse(rows, k, gap) {
      if gap in gaps {
        var i :| 0 <= i < |gaps| && gaps[i] == gap;
        assert Lapse(rows, at[i], gap);
      }
      if k: nat :| k < n && Lapse(rows, k, gap) {
        var i :| 0 <= i < |at| && at[i] == k;
        assert Lapse(rows, at[i], gaps[i]);
      }
    }
  }

  // ---- Flag sets and counters ----

  /** `flags_by_id.get(id, set())`. */
  function Flagged(flags: map<int, set<Flag>>, id: int): set<Flag> {
    if id in flags then flags[id] else {}
  }

  /** `flags_by_id.setdefault(id, set()).add(f)`. */
  function AddFlag(flags: map<int, set<Flag>>, id: int, f: Flag): map<int, set<Flag>> {
    flags[id := Flagged(flags, id) + {f}]
  }

  function CountOf(counts: map<Flag, nat>, f: Flag): nat {
    if f in counts then counts[f] else 0
  }

  ghost predicate DistinctRows(rows: seq<PriceRow>) {
    forall i, j :: 0 <= i < j < |rows| ==> rows[i].id != rows[j].id
  }

  /** How many of the first `n` indices satisfy `p`. */
  ghost function CountIf(n: nat, p: nat -> bool): (c: nat)
    ensures c <= n
  {
    if n == 0 then 0 else CountIf(n - 1, p) + (if p(n - 1) then 1 else 0)
  }

  ghost function HasFlag(rows: seq<PriceRow>, f: Flag): nat -> bool {
    (k: nat) => k < |rows| && RowFlag(rows, k, f)
  }

  method RecordFlags(flags: map<int, set<Flag>>, counts: map<Flag, nat>, id: int, found: seq<Flag>)
    returns (flags': map<int, set<Flag>>, counts': map<Flag, nat>)
    requires NoRepeats(found)
    ensures RecordedAt(id, flags, found, flags')
    ensures forall f :: CountOf(counts', f) == CountOf(counts, f) + (if f in found then 1 else 0)
    ensures forall f :: f in counts' <==> f in counts || f in found
  {
    flags', counts' := flags, counts;
    for i := 0 to |found|
      invariant forall x :: Flagged(flags', x) == Flagged(flags, x) + (if x == id then set f | f in found[..i] else {})
      invariant forall x :: x in flags' <==> x in flags || (x == id && i > 0)
      invariant forall f :: CountOf(counts', f) == CountOf(counts, f) + (if f in found[..i] then 1 else 0)
      invariant forall f :: f in counts' <==> f in counts || f in found[..i]
    {
      assert found[..i + 1] == found[..i] + [found[i]];
      assert found[i] !in found[..i];
      flags' := AddFlag(flags', id, found[i]);
      counts' := counts'[found[i] := CountOf(counts', found[i]) + 1];
    }
    assert found[..|found|] == found;
  }

  /** `_flush_stale_run`: a run that is long enough is flagged from end to end. */
  method FlushRun(flags: map<int, set<Flag>>, run: seq<PriceRow>) returns (flags': map<int, set<Flag>>)
    ensures FlushedAt(run, flags, flags')
  {
    flags' := flags;
    if |run| >= STALE_RUN_MIN_LENGTH {
      for i := 0 to |run|
        invariant forall x :: Flagged(flags', x) == Flagged(flags, x)
                              + (if Member(run[..i], x) then {StaleQuoteRun} else {})
        invariant forall x :: x in flags' <==> x in flags || Member(run[..i], x)
      {
        assert run[..i + 1] == run[..i] + [run[i]];
        flags' := AddFlag(flags', run[i].id, StaleQuoteRun);
      }
      assert run[..|run|] == run;
    }
  }

  // ---- The pass over one stock ----

  /** Every flag but the stale one is right for the first `i` rows. */
  ghost predicate LocalRight(rows: seq<PriceRow>, i: nat, flags: map<int, set<Flag>>)
    requires i <= |rows|
  {
    forall k, f :: 0 <= k < i && f != StaleQuoteRun
                   ==> (f in Flagged(flags, rows[k].id) <==> LocalFlag(Before(rows, k), rows[k], f))
  }

  /** The stale flag is right for the first `lo` of `i` rows and not yet set for the others. */
  ghost predicate StaleRight(rows: seq<PriceRow>, i: nat, lo: nat, flags: map<int, set<Flag>>)
    requires i <= |rows|
  {
    forall k :: 0 <= k < i ==> (StaleQuoteRun in Flagged(flags, rows[k].id) <==> k < lo && InStaleBlock(rows, k))
  }

  /** Only rows seen so far have an entry, and no entry is empty. */
  ghost predicate KeysRight(rows: seq<PriceRow>, i: nat, flags: map<int, set<Flag>>)
    requires i <= |rows|
  {
    forall x :: x in flags ==> flags[x] != {} && exists k :: 0 <= k < i && rows[k].id == x
  }

  /** The flag sets after `i` rows when the stale flags of the rows before `lo` are final and none is set after. */
  ghost predicate Scanned(rows: seq<PriceRow>, i: nat, lo: nat, flags: map<int, set<Flag>>) {
    && lo <= i <= |rows|
    && LocalRight(rows, i, flags)
    && StaleRight(rows, i, lo, flags)
    && KeysRight(rows, i, flags)
  }

  /** The rows from `lo` up to `i` form the maximal run of repeats ending there. */
  ghost predicate RunSince(rows: seq<PriceRow>, i: nat, lo: nat) {
    lo <= i <= |rows| && AllRepeat(rows, lo, i) && !Repeats(rows, lo - 1)
  }

  /** What flushing `run` does to the flag sets. */
  ghost predicate FlushedAt(run: seq<PriceRow>, flags: map<int, set<Flag>>, flags': map<int, set<Flag>>) {
    && (|run| < STALE_RUN_MIN_LENGTH ==> flags' == flags)
    && (|run| >= STALE_RUN_MIN_LENGTH ==>
          forall x :: Flagged(flags', x) == Flagged(flags, x) + (if Member(run, x) then {StaleQuoteRun} else {}))
    && (|run| >= STALE_RUN_MIN_LENGTH ==> forall x :: x in flags' <==> x in flags || Member(run, x))
  }

  ghost predicate Member(run: seq<PriceRow>, id: int) {
    exists r :: r in run && r.id == id
  }

  lemma {:induction false} FlushedStale(rows: seq<PriceRow>, i: nat, lo: nat, flags: map<int, set<Flag>>,
                                        flags': map<int, set<Flag>>)
    requires DistinctRows(rows) && RunSince(rows, i, lo) && !Repeats(rows, i)
    requires StaleRight(rows, i, lo, flags) && FlushedAt(rows[lo..i], flags, flags')
    ensures StaleRight(rows, i, i, flags')
  {
    hide InStaleBlock, Member;
    forall k | 0 <= k < i
      ensures StaleQuoteRun in Flagged(flags', rows[k].id) <==> InStaleBlock(rows, k)
    {
      InRun(rows, lo, i, k);
      if lo <= k {
        MaximalRun(rows, lo, i, k);
      }
    }
  }

  lemma {:induction false} FlushedLocal(rows: seq<PriceRow>, i: nat, run: seq<PriceRow>, flags: map<int, set<Flag>>,
                                        flags': map<int, set<Flag>>)
    requires i <= |rows| && LocalRight(rows, i, flags) && FlushedAt(run, flags, flags')
    ensures LocalRight(rows, i, flags')
  {
    hide LocalFlag, Member;
  }

  lemma {:induction false} FlushedKeys(rows: seq<PriceRow>, i: nat, lo: nat, flags: map<int, set<Flag>>,
                                       flags': map<int, set<Flag>>)
    requires lo <= i <= |rows| && KeysRight(rows, i, flags) && FlushedAt(rows[lo..i], flags, flags')
    ensures KeysRight(rows, i, flags')
  {
    forall x | x in flags' ensures flags'[x] != {} && exists k :: 0 <= k < i && rows[k].id == x {
      if x !in flags {
        var r :| r in rows[lo..i] && r.id == x;
        var m :| 0 <= m < i - lo && rows[lo..i][m] == r;
        assert rows[lo + m].id == x;
        assert StaleQuoteRun in Flagged(flags', x);
      } else {
        assert Flagged(flags, x) <= Flagged(flags', x);
      }
    }
  }

  /** Flushing the run at a row that does not continue it makes all stale flags so far final. */
  lemma {:induction false} Flushed(rows: seq<PriceRow>, i: nat, lo: nat, flags: map<int, set<Flag>>, flags': map<int,
                                   set<Flag>>)
    requires DistinctRows(rows) && Scanned(rows, i, lo, flags) && RunSince(rows, i, lo) && !Repeats(rows, i)
    requires FlushedAt(rows[lo..i], flags, flags')
    ensures Scanned(rows, i, i, flags')
  {
    hide LocalRight, StaleRight, KeysRight, FlushedAt;
    FlushedStale(rows, i, lo, flags, flags');
    FlushedLocal(rows, i, rows[lo..i], flags, flags');
    FlushedKeys(rows, i, lo, flags, flags');
  }

  /** With distinct ids, a row's id occurs in a slice exactly when the row does. */
  lemma {:induction false} InRun(rows: seq<PriceRow>, lo: nat, hi: nat, k: nat)
    requires DistinctRows(rows) && lo <= hi <= |rows| && k < hi
    ensures Member(rows[lo..hi], rows[k].id) <==> lo <= k
  {
    if lo <= k {
      assert rows[lo..hi][k - lo] == rows[k];
    }
    if r :| r in rows[lo..hi] && r.id == rows[k].id {
      var m :| 0 <= m < hi - lo && rows[lo..hi][m] == r;
      assert rows[lo + m].id == rows[k].id;
    }
  }

  /** What recording the flags of row `i` does to the flag sets. */
  ghost predicate RecordedAt(id: int, flags: map<int, set<Flag>>, found: seq<Flag>, flags': map<int, set<Flag>>) {
    && (forall x :: Flagged(flags', x) == Flagged(flags, x) + (if x == id then set f | f in found else {}))
    && (forall x :: x in flags' <==> x in flags || (x == id && found != []))
  }

  lemma {:induction false} RecordedElsewhere(rows: seq<PriceRow>, i: nat, flags: map<int, set<Flag>>,
                                             found: seq<Flag>, flags': map<int, set<Flag>>)
    requires DistinctRows(rows) && i < |rows| && KeysRight(rows, i, flags)
    requires RecordedAt(rows[i].id, flags, found, flags')
    ensures Flagged(flags', rows[i].id) == set f | f in found
    ensures forall k :: 0 <= k < i ==> Flagged(flags', rows[k].id) == Flagged(flags, rows[k].id)
    ensures KeysRight(rows, i + 1, flags')
  {
    assert rows[i].id !in flags;
    forall x | x in flags' ensures flags'[x] != {} && exists k :: 0 <= k < i + 1 && rows[k].id == x {
      assert flags'[x] == Flagged(flags', x);
      if x == rows[i].id {
        assert found[0] in flags'[x];
      } else {
        assert flags'[x] == flags[x];
      }
    }
  }

  /** Recording the flags of row `i`. */
  lemma {:induction false} Recorded(rows: seq<PriceRow>, i: nat, lo: nat, flags: map<int, set<Flag>>,
                                    found: seq<Flag>, flags': map<int, set<Flag>>)
    requires DistinctRows(rows) && i < |rows| && Scanned(rows, i, lo, flags)
    requires forall f :: f in found <==> f != StaleQuoteRun && LocalFlag(Before(rows, i), rows[i], f)
    requires RecordedAt(rows[i].id, flags, found, flags')
    ensures Scanned(rows, i + 1, lo, flags')
  {
    hide LocalFlag, InStaleBlock, KeysRight, RecordedAt, Flagged;
    RecordedElsewhere(rows, i, flags, found, flags');
  }

  lemma {:induction false} RowOutsideBlocks(rows: seq<PriceRow>, i: nat, flags: map<int, set<Flag>>)
    requires i < |rows| && Scanned(rows, i + 1, i, flags) && !Repeats(rows, i)
    ensures Scanned(rows, i + 1, i + 1, flags)
  {
    hide LocalFlag;
    assert !InStaleBlock(rows, i);
  }

  /** Final flag sets say of every row exactly what the flags mean. */
  lemma {:induction false} ScanComplete(rows: seq<PriceRow>, flags: map<int, set<Flag>>, k: nat)
    requires Scanned(rows, |rows|, |rows|, flags) && k < |rows|
    ensures Flagged(flags, rows[k].id) == FlagsOf(rows, k)
  {
    hide LocalFlag, InStaleBlock;
    forall f ensures f in Flagged(flags, rows[k].id) <==> f in FlagsOf(rows, k) {
      EveryFlagListed(f);
    }
  }

  /** `ids` are the ids of the first `n` rows with property `p`. */
  ghost predicate IdsOf(rows: seq<PriceRow>, n: nat, p: nat -> bool, ids: set<int>)
    requires n <= |rows|
  {
    forall x :: x in ids <==> exists k: nat :: k < n && p(k) && rows[k].id == x
  }

  lemma {:induction false} OneIdLess(rows: seq<PriceRow>, n: nat, p: nat -> bool, ids: set<int>)
    requires DistinctRows(rows) && n < |rows| && p(n) && IdsOf(rows, n + 1, p, ids)
    ensures rows[n].id in ids && IdsOf(rows, n, p, ids - {rows[n].id})
  {
    forall x ensures x in ids - {rows[n].id} <==> exists k: nat :: k < n && p(k) && rows[k].id == x {
      if k: nat :| k < n && p(k) && rows[k].id == x {
        assert x in ids;
      }
    }
  }

  lemma {:induction false} SameIds(rows: seq<PriceRow>, n: nat, p: nat -> bool, ids: set<int>)
    requires n < |rows| && !p(n) && IdsOf(rows, n + 1, p, ids)
    ensures IdsOf(rows, n, p, ids)
  {
  }

  lemma {:induction false} NoIds(rows: seq<PriceRow>, p: nat -> bool, ids: set<int>)
    requires IdsOf(rows, 0, p, ids)
    ensures ids == {}
  {
    assert forall x :: x !in ids;
  }

  /** Distinct rows with a property have as many ids. */
  lemma {:induction false} IdsCount(rows: seq<PriceRow>, n: nat, p: nat -> bool, ids: set<int>)
    requires DistinctRows(rows) && n <= |rows| && IdsOf(rows, n, p, ids)
    ensures |ids| == CountIf(n, p)
  {
    hide IdsOf, DistinctRows;
    if n == 0 {
      NoIds(rows, p, ids);
    } else if p(n - 1) {
      OneIdLess(rows, n - 1, p, ids);
      IdsCount(rows, n - 1, p, ids - {rows[n - 1].id});
    } else {
      SameIds(rows, n - 1, p, ids);
      IdsCount(rows, n - 1, p, ids);
    }
  }

  /** The result of a scan: sorted flags per row id, flag counts, gaps. */
  datatype Scan = Scan(flagsById: map<int, seq<Flag>>, counts: map<Flag, nat>, gaps: seq<Gap>)

  /** `flags_by_id.get(id, [])`. */
  function ListedFlags(flags: map<int, seq<Flag>>, id: int): seq<Flag> {
    if id in flags then flags[id] else []
  }

  /** What a scan of `rows` must report. */
  ghost predicate ScanOf(rows: seq<PriceRow>, scan: Scan) {
    && (forall k :: 0 <= k < |rows| ==> ListedFlags(scan.flagsById, rows[k].id) == Sorted(FlagsOf(rows, k)))
    && (forall x :: x in scan.flagsById ==> exists k :: 0 <= k < |rows| && rows[k].id == x)
    && (forall f :: CountOf(scan.counts, f) == CountIf(|rows|, HasFlag(rows, f)))
    && scan.gaps == GapsUpTo(rows, |rows|)
    && GapsListed(rows, |rows|, scan.gaps)
    && |scan.flagsById| == CountIf(|rows|, HasAnyFlag(rows))
  }

  ghost function HasAnyFlag(rows: seq<PriceRow>): nat -> bool {
    (k: nat) => k < |rows| && FlagsOf(rows, k) != {}
  }

  /** Counts of everything but stale rows, after `i` rows. */
  ghost predicate Counted(rows: seq<PriceRow>, i: nat, counts: map<Flag, nat>) {
    i <= |rows|
    && StaleQuoteRun !in counts
    && forall f :: f != StaleQuoteRun ==> CountOf(counts, f) == CountIf(i, HasFlag(rows, f))
  }

  lemma {:induction false} CountedNext(rows: seq<PriceRow>, i: nat, counts: map<Flag, nat>, found: seq<Flag>,
                                       counts': map<Flag, nat>)
    requires i < |rows| && Counted(rows, i, counts) && StaleQuoteRun !in counts'
    requires forall f :: f in found <==> f != StaleQuoteRun && LocalFlag(Before(rows, i), rows[i], f)
    requires forall f :: CountOf(counts', f) == CountOf(counts, f) + (if f in found then 1 else 0)
    ensures Counted(rows, i + 1, counts')
  {
    hide LocalFlag;
  }

  lemma {:induction false} NothingScanned(rows: seq<PriceRow>)
    ensures Scanned(rows, 0, 0, map[])
  {
  }

  method ScanRows(rows: seq<PriceRow>) returns (flags: map<int, set<Flag>>, counts: map<Flag, nat>, gaps: seq<Gap>)
    requires DistinctRows(rows)
    ensures Scanned(rows, |rows|, |rows|, flags)
    ensures Counted(rows, |rows|, counts)
    ensures gaps == GapsUpTo(rows, |rows|)
    ensures GapsListed(rows, |rows|, gaps)
  {
    hide LocalFlag, InStaleBlock, Scanned, HasFlag;
    flags, counts, gaps := map[], map[], [];
    var staleRun: seq<PriceRow> := [];
    ghost var lo := 0;
    NothingScanned(rows);
    for i := 0 to |rows|
      invariant Scanned(rows, i, lo, flags) && RunSince(rows, i, lo)
      invariant staleRun == rows[lo..i]
      invariant Counted(rows, i, counts)
      invariant gaps == GapsUpTo(rows, i)
    {
      var row := rows[i];
      var prev := Before(rows, i);
      var found, gap := InspectRow(prev, row);
      if gap.Some? {
        gaps := gaps + [gap.value];
      }
      ghost var from := lo;
      if prev.Some? && row.close == prev.value.close && row.volume > 0 {
        staleRun := staleRun + [row];
      } else {
        var flushed := FlushRun(flags, staleRun);
        Flushed(rows, i, lo, flags, flushed);
        flags, staleRun, lo := flushed, [], i + 1;
        from := i;
      }
      var flags', counts' := RecordFlags(flags, counts, row.id, found);
      assert StaleQuoteRun !in found;
      Recorded(rows, i, from, flags, found, flags');
      if lo == i + 1 {
        RowOutsideBlocks(rows, i, flags');
      }
      CountedNext(rows, i, counts, found, counts');
      flags, counts := flags', counts';
    }
    var flushed := FlushRun(flags, staleRun);
    Flushed(rows, |rows|, lo, flags, flushed);
    flags := flushed;
    GapsAreLapses(rows, |rows|);
  }

  lemma {:induction false} SortedNone(i: nat)
    requires i <= |ALPHABETICAL|
    ensures SortedFrom({}, i) == []
    decreases |ALPHABETICAL| - i
  {
    if i < |ALPHABETICAL| {
      SortedNone(i + 1);
    }
  }

  /** The number of stale entries is the number of stale rows. */
  lemma {:induction false} StaleCount(rows: seq<PriceRow>, flags: map<int, set<Flag>>)
    requires DistinctRows(rows) && Scanned(rows, |rows|, |rows|, flags)
    ensures |set x | x in flags && StaleQuoteRun in flags[x]| == CountIf(|rows|, HasFlag(rows, StaleQuoteRun))
  {
    hide InStaleBlock, LocalRight;
    var ids := set x | x in flags && StaleQuoteRun in flags[x];
    var p := HasFlag(rows, StaleQuoteRun);
    forall x ensures x in ids <==> exists k: nat :: k < |rows| && p(k) && rows[k].id == x {
      if x in ids {
        var k: nat :| k < |rows| && rows[k].id == x;
        assert p(k);
      }
      if k: nat :| k < |rows| && p(k) && rows[k].id == x {
        assert StaleQuoteRun in Flagged(flags, rows[k].id);
      }
    }
    IdsCount(rows, |rows|, p, ids);
  }

  /** There is an entry for exactly the rows that have some flag. */
  lemma {:induction false} EntryCount(rows: seq<PriceRow>, flags: map<int, set<Flag>>)
    requires DistinctRows(rows) && Scanned(rows, |rows|, |rows|, flags)
    ensures |flags.Keys| == CountIf(|rows|, HasAnyFlag(rows))
  {
    hide InStaleBlock, LocalRight, StaleRight, FlagsOf;
    var p := HasAnyFlag(rows);
    forall x ensures x in flags.Keys <==> exists k: nat :: k < |rows| && p(k) && rows[k].id == x {
      if x in flags {
        var k: nat :| k < |rows| && rows[k].id == x;
        ScanComplete(rows, flags, k);
        assert p(k);
      }
      if k: nat :| k < |rows| && p(k) && rows[k].id == x {
        ScanComplete(rows, flags, k);
      }
    }
    IdsCount(rows, |rows|, p, flags.Keys);
  }

  /** `{k: sorted(v) for k, v in flags_by_id.items()}`. */
  function Listed(flags: map<int, set<Flag>>): (listed: map<int, seq<Flag>>)
    ensures listed.Keys == flags.Keys
  {
    map x | x in flags :: Sorted(flags[x])
  }

  lemma {:induction false} ListedRow(rows: seq<PriceRow>, flags: map<int, set<Flag>>, k: nat)
    requires Scanned(rows, |rows|, |rows|, flags) && k < |rows|
    ensures ListedFlags(Listed(flags), rows[k].id) == Sorted(FlagsOf(rows, k))
  {
    hide Scanned, FlagsOf, SortedFrom;
    ScanComplete(rows, flags, k);
    SortedNone(0);
  }

  function StaleEntries(flags: map<int, set<Flag>>): nat {
    |set x | x in flags && StaleQuoteRun in flags[x]|
  }

  lemma {:induction false} CountsReported(rows: seq<PriceRow>, counts: map<Flag, nat>, stale: nat)
    requires Counted(rows, |rows|, counts) && stale == CountIf(|rows|, HasFlag(rows, StaleQuoteRun))
    ensures forall f :: CountOf(counts[StaleQuoteRun := stale], f) == CountIf(|rows|, HasFlag(rows, f))
  {
    hide CountIf, HasFlag;
  }

  lemma {:induction false} ScanReported(rows: seq<PriceRow>, flags: map<int, set<Flag>>, counts: map<Flag, nat>,
                                        gaps: seq<Gap>)
    requires DistinctRows(rows) && Scanned(rows, |rows|, |rows|, flags) && Counted(rows, |rows|, counts)
    requires gaps == GapsUpTo(rows, |rows|) && GapsListed(rows, |rows|, gaps)
    ensures ScanOf(rows, Scan(Listed(flags), counts[StaleQuoteRun := StaleEntries(flags)], gaps))
  {
    StaleCount(rows, flags);
    EntryCount(rows, flags);
    CountsReported(rows, counts, StaleEntries(flags));
    assert KeysRight(rows, |rows|, flags);
    hide DistinctRows, Scanned, KeysRight, FlagsOf, HasFlag, HasAnyFlag, Listed, ListedFlags, Sorted, CountIf, GapsUpTo,
         Counted, StaleEntries, CountOf, GapsListed;
    KeysOfRows(rows, flags);
    forall k | 0 <= k < |rows| ensures ListedFlags(Listed(flags), rows[k].id) == Sorted(FlagsOf(rows, k)) {
      ListedRow(rows, flags, k);
    }
    assert |Listed(flags)| == |flags.Keys|;
  }

  lemma {:induction false} KeysOfRows(rows: seq<PriceRow>, flags: map<int, set<Flag>>)
    requires KeysRight(rows, |rows|, flags)
    ensures forall x :: x in Listed(flags) ==> exists k :: 0 <= k < |rows| && rows[k].id == x
  {
    hide Listed;
  }

  /** `scan_stock_quality`: the streaming scan reports exactly what the flags mean. */
  method ScanStock(rows: seq<PriceRow>) returns (scan: Scan)
    requires DistinctRows(rows)
    ensures ScanOf(rows, scan)
  {
    hide *;
    var flags, counts, gaps := ScanRows(rows);
    ScanReported(rows, flags, counts, gaps);
    scan := Scan(Listed(flags), counts[StaleQuoteRun := StaleEntries(flags)], gaps);
  }

  /** Each gap belongs to one row flagged for it. */
  lemma {:induction false} GapsAreFlagged(rows: seq<PriceRow>, n: nat)
    requires n <= |rows|
    ensures |GapsUpTo(rows, n)| == CountIf(n, HasFlag(rows, GapBefore))
  {
    if 0 < n {
      GapsAreFlagged(rows, n - 1);
    }
  }
}
