/** What each quality flag means, stated row by row over a stock's whole history. */
module QualityFlags {
  import opened Numbers

  const ABNORMAL_JUMP_PCT := 25.0
  const GAP_CALENDAR_DAYS := 10
  const STALE_RUN_MIN_LENGTH := 5

  datatype Flag =
    | AbnormalJump | CloseOutOfRange | GapBefore | HighBelowLow | NegativeVolume | NonPositiveClose
    | NonPositiveHigh | NonPositiveLow | NonPositiveOpen | OpenOutOfRange | StaleQuoteRun

  /** All flags in the alphabetical order of their codes. */
  const ALPHABETICAL: seq<Flag> :=
    [AbnormalJump, CloseOutOfRange, GapBefore, HighBelowLow, NegativeVolume, NonPositiveClose, NonPositiveHigh,
     NonPositiveLow, NonPositiveOpen, OpenOutOfRange, StaleQuoteRun]

  datatype Bar = Bar(open: Option<real>, high: Option<real>, low: Option<real>, close: Option<real>,
                     volume: Option<int>)

  datatype PriceRow = PriceRow(id: int, date: int, open: real, high: real, low: real, close: real, volume: int) {
    function AsBar(): Bar {
      Bar(Some(open), Some(high), Some(low), Some(close), Some(volume))
    }
  }

  datatype Gap = Gap(start: int, end: int, daysMissing: int)

  // ---- One bar ----

  predicate NotPositive(v: Option<real>) {
    v.None? || v.value <= 0.0
  }

  predicate RangeKnown(bar: Bar) {
    bar.high.Some? && bar.low.Some? && bar.high.value >= 0.0 && bar.low.value >= 0.0
  }

  predicate Outside(bar: Bar, v: Option<real>)
    requires RangeKnown(bar)
  {
    && bar.low.value <= bar.high.value
    && v.Some? && v.value > 0.0
    && !(bar.low.value <= v.value <= bar.high.value)
  }

  /** Does a single bar violate the rule behind flag `f`? */
  predicate Violates(bar: Bar, f: Flag) {
    match f
    case NonPositiveOpen => NotPositive(bar.open)
    case NonPositiveHigh => NotPositive(bar.high)
    case NonPositiveLow => NotPositive(bar.low)
    case NonPositiveClose => NotPositive(bar.close)
    case NegativeVolume => bar.volume.Some? && bar.volume.value < 0
    case HighBelowLow => RangeKnown(bar) && bar.high.value < bar.low.value
    case OpenOutOfRange => RangeKnown(bar) && Outside(bar, bar.open)
    case CloseOutOfRange => RangeKnown(bar) && Outside(bar, bar.close)
    case AbnormalJump | GapBefore | StaleQuoteRun => false
  }

  // ---- One row after its predecessor ----

  predicate JumpsFrom(prev: PriceRow, row: PriceRow) {
    prev.close > 0.0 && row.close > 0.0
    && Abs(row.close - prev.close) / prev.close * 100.0 >= ABNORMAL_JUMP_PCT
  }

  /** The flags a row earns from itself and its predecessor alone. */
  predicate LocalFlag(prev: Option<PriceRow>, row: PriceRow, f: Flag) {
    match f
    case GapBefore => prev.Some? && row.date - prev.value.date > GAP_CALENDAR_DAYS
    case AbnormalJump => prev.Some? && JumpsFrom(prev.value, row)
    case _ => Violates(row.AsBar(), f)
  }

  function Before(rows: seq<PriceRow>, k: nat): Option<PriceRow>
    requires k < |rows|
  {
    if k == 0 then None else Some(rows[k - 1])
  }

  // ---- Stale runs ----

  /** Row `k` repeats the close of its predecessor although it traded. */
  predicate Repeats(rows: seq<PriceRow>, k: int) {
    0 < k < |rows| && rows[k].close == rows[k - 1].close && rows[k].volume > 0
  }

  predicate AllRepeat(rows: seq<PriceRow>, lo: int, hi: int) {
    forall m :: lo <= m < hi ==> Repeats(rows, m)
  }

  /** Row `k` lies in a window of at least the minimum length whose rows all repeat their predecessor. */
  ghost predicate InStaleBlock(rows: seq<PriceRow>, k: int) {
    exists lo, hi :: lo <= k < hi && hi - lo >= STALE_RUN_MIN_LENGTH && AllRepeat(rows, lo, hi)
  }

  /** The complete meaning of every flag. */
  ghost predicate RowFlag(rows: seq<PriceRow>, k: nat, f: Flag)
    requires k < |rows|
  {
    if f == StaleQuoteRun then InStaleBlock(rows, k) else LocalFlag(Before(rows, k), rows[k], f)
  }

  ghost function FlagsOf(rows: seq<PriceRow>, k: nat): set<Flag>
    requires k < |rows|
  {
    set f | f in ALPHABETICAL && RowFlag(rows, k, f)
  }

  /** `sorted(v)`: the members of a flag set in alphabetical order. */
  function Sorted(flags: set<Flag>): seq<Flag> {
    SortedFrom(flags, 0)
  }

  function SortedFrom(flags: set<Flag>, i: nat): (r: seq<Flag>)
    requires i <= |ALPHABETICAL|
    ensures forall f :: f in r <==> f in flags && f in ALPHABETICAL[i..]
    decreases |ALPHABETICAL| - i
  {
    if i == |ALPHABETICAL| then []
    else if ALPHABETICAL[i] in flags then [ALPHABETICAL[i]] + SortedFrom(flags, i + 1)
    else SortedFrom(flags, i + 1)
  }

  lemma {:induction false} EveryFlagListed(f: Flag)
    ensures f in ALPHABETICAL
  {
    assert ALPHABETICAL[0] == AbnormalJump && ALPHABETICAL[1] == CloseOutOfRange && ALPHABETICAL[2] == GapBefore
           && ALPHABETICAL[3] == HighBelowLow && ALPHABETICAL[4] == NegativeVolume
           && ALPHABETICAL[5] == NonPositiveClose && ALPHABETICAL[6] == NonPositiveHigh
           && ALPHABETICAL[7] == NonPositiveLow && ALPHABETICAL[8] == NonPositiveOpen
           && ALPHABETICAL[9] == OpenOutOfRange && ALPHABETICAL[10] == StaleQuoteRun;
  }

  /** Sorting a flag set keeps exactly its members. */
  lemma {:induction false} SortedKeeps(flags: set<Flag>)
    ensures forall f :: f in Sorted(flags) <==> f in flags
  {
    assert ALPHABETICAL[0..] == ALPHABETICAL;
    forall f ensures f in Sorted(flags) <==> f in flags {
      EveryFlagListed(f);
    }
  }

  // ---- The flags in prices and days ----

  /** A bar without a violation: every price known and positive, open and close within the range, no negative volume. */
  predicate Clean(bar: Bar) {
    && bar.open.Some? && bar.high.Some? && bar.low.Some? && bar.close.Some?
    && 0.0 < bar.low.value <= bar.open.value <= bar.high.value && bar.low.value <= bar.close.value <= bar.high.value
    && (bar.volume.Some? ==> 0 <= bar.volume.value)
  }

  lemma {:induction false} CleanExactlyWhen(bar: Bar)
    ensures Clean(bar) <==> forall f :: !Violates(bar, f)
  {
    if forall f :: !Violates(bar, f) {
      assert !Violates(bar, NonPositiveOpen) && !Violates(bar, NonPositiveHigh) && !Violates(bar, NonPositiveLow)
             && !Violates(bar, NonPositiveClose) && !Violates(bar, NegativeVolume) && !Violates(bar, HighBelowLow)
             && !Violates(bar, OpenOutOfRange) && !Violates(bar, CloseOutOfRange);
    }
  }

  lemma {:induction false} JumpInPrices(prev: PriceRow, row: PriceRow)
    ensures JumpsFrom(prev, row)
            <==> 0.0 < prev.close && 0.0 < row.close
                 && (row.close >= 1.25 * prev.close || row.close <= 0.75 * prev.close)
  {
    if 0.0 < prev.close {
      QuarterOf(Abs(row.close - prev.close), prev.close);
    }
  }

  lemma {:induction false} QuarterOf(x: real, base: real)
    requires 0.0 < base
    ensures x / base * 100.0 >= 25.0 <==> x >= 0.25 * base
  {
    DivideMultiply(x, base);
    if x / base >= 0.25 {
      ScaleLess(0.25, x / base, base);
    } else {
      ScaleLess(x / base, 0.25, base);
    }
  }

  /**
   What each flag of a row says: which price is not positive; a negative volume; a range upside down; an open or close
   outside it; a close at least a quarter above or below the one before; more than ten days since the row before.
   */
  lemma {:induction false} FlagsInPrices(rows: seq<PriceRow>, k: nat)
    requires k < |rows|
    ensures var row, f := rows[k], FlagsOf(rows, k);
            && (NonPositiveOpen in f <==> row.open <= 0.0) && (NonPositiveHigh in f <==> row.high <= 0.0)
            && (NonPositiveLow in f <==> row.low <= 0.0) && (NonPositiveClose in f <==> row.close <= 0.0)
            && (NegativeVolume in f <==> row.volume < 0)
            && (HighBelowLow in f <==> 0.0 <= row.high < row.low)
            && (OpenOutOfRange in f
                <==> 0.0 <= row.low <= row.high && 0.0 < row.open && (row.open < row.low || row.high < row.open))
            && (CloseOutOfRange in f
                <==> 0.0 <= row.low <= row.high && 0.0 < row.close && (row.close < row.low || row.high < row.close))
    ensures GapBefore in FlagsOf(rows, k) <==> 0 < k && rows[k].date - rows[k - 1].date > 10
    ensures AbnormalJump in FlagsOf(rows, k)
            <==> 0 < k && 0.0 < rows[k - 1].close && 0.0 < rows[k].close
                 && (rows[k].close >= 1.25 * rows[k - 1].close || rows[k].close <= 0.75 * rows[k - 1].close)
  {
    hide FlagsOf, JumpsFrom, InStaleBlock;
    FlagIsListed(rows, k);
    ViolationsInPrices(rows[k]);
    if 0 < k {
      JumpInPrices(rows[k - 1], rows[k]);
    }
    hide Violates;
  }

  lemma {:induction false} FlagIsListed(rows: seq<PriceRow>, k: nat)
    requires k < |rows|
    ensures forall f :: f in FlagsOf(rows, k) <==> RowFlag(rows, k, f)
  {
    hide RowFlag;
    forall f ensures f in FlagsOf(rows, k) <==> RowFlag(rows, k, f) {
      EveryFlagListed(f);
    }
  }

  lemma {:induction false} ViolationsInPrices(row: PriceRow)
    ensures var bar := row.AsBar();
            && (Violates(bar, NonPositiveOpen) <==> row.open <= 0.0)
            && (Violates(bar, NonPositiveHigh) <==> row.high <= 0.0)
            && (Violates(bar, NonPositiveLow) <==> row.low <= 0.0)
            && (Violates(bar, NonPositiveClose) <==> row.close <= 0.0)
            && (Violates(bar, NegativeVolume) <==> row.volume < 0)
            && (Violates(bar, HighBelowLow) <==> 0.0 <= row.high < row.low)
            && (Violates(bar, OpenOutOfRange)
                <==> 0.0 <= row.low <= row.high && 0.0 < row.open && (row.open < row.low || row.high < row.open))
            && (Violates(bar, CloseOutOfRange)
                <==> 0.0 <= row.low <= row.high && 0.0 < row.close && (row.close < row.low || row.high < row.close))
  {
  }

  // ---- Five equal closes ----

  /** `n` consecutive days with one close, all of them traded. */
  function Flat(n: nat): seq<PriceRow> {
    seq(n, i => PriceRow(i, i, 10.0, 10.0, 10.0, 10.0, 100))
  }

  /** Five equal closes are not flagged at all; with a sixth one, all but the first are. */
  lemma {:induction false} FiveEqualClosesAreNotFlagged()
    ensures forall k :: 0 <= k < 5 ==> FlagsOf(Flat(5), k) == {}
    ensures FlagsOf(Flat(6), 0) == {} && forall k :: 1 <= k < 6 ==> FlagsOf(Flat(6), k) == {StaleQuoteRun}
  {
    forall n: nat, k: nat, f | 5 <= n <= 6 && k < n && f != StaleQuoteRun
      ensures !LocalFlag(Before(Flat(n), k), Flat(n)[k], f)
    {
      FlatRow(n, k, f);
    }
    forall k | 0 <= k < 5 ensures !InStaleBlock(Flat(5), k) {
      StaleMeansSixEqualCloses(Flat(5), k);
    }
    StaleMeansSixEqualCloses(Flat(6), 0);
    assert !InStaleBlock(Flat(6), 0);
    assert AllRepeat(Flat(6), 1, 6);
    forall k | 1 <= k < 6 ensures InStaleBlock(Flat(6), k) {}
    EveryFlagListed(StaleQuoteRun);
    hide LocalFlag, InStaleBlock, Flat;
  }

  lemma {:induction false} FlatRow(n: nat, k: nat, f: Flag)
    requires k < n && f != StaleQuoteRun
    ensures !LocalFlag(Before(Flat(n), k), Flat(n)[k], f)
  {
  }

  // ---- Alphabetical order ----

  /** The code under which a flag is stored. */
  function Code(f: Flag): string {
    match f
    case AbnormalJump => "abnormal_jump"
    case CloseOutOfRange => "close_out_of_range"
    case GapBefore => "gap_before"
    case HighBelowLow => "high_below_low"
    case NegativeVolume => "negative_volume"
    case NonPositiveClose => "non_positive_close"
    case NonPositiveHigh => "non_positive_high"
    case NonPositiveLow => "non_positive_low"
    case NonPositiveOpen => "non_positive_open"
    case OpenOutOfRange => "open_out_of_range"
    case StaleQuoteRun => "stale_quote_run"
  }

  /** The strings agree on their first `k` characters, and the next one decides for `a`. */
  predicate LessAt(a: string, b: string, k: nat) {
    k < |a| && k < |b| && a[..k] == b[..k] && a[k] < b[k]
  }

  ghost predicate Less(a: string, b: string) {
    exists k: nat :: LessAt(a, b, k)
  }

  lemma {:induction false} LessTransitive(a: string, b: string, c: string)
    requires Less(a, b) && Less(b, c)
    ensures Less(a, c)
  {
    var j: nat :| LessAt(a, b, j);
    var k: nat :| LessAt(b, c, k);
    var m := if j < k then j else k;
    assert a[..m] == a[..j][..m] && b[..m] == b[..j][..m] == b[..k][..m] && c[..m] == c[..k][..m];
    assert m < k ==> b[..k][m] == c[..k][m];
    assert m < j ==> a[..j][m] == b[..j][m];
    assert LessAt(a, c, m);
  }

  lemma {:induction false} NextCode(i: nat)
    requires i + 1 < |ALPHABETICAL|
    ensures Less(Code(ALPHABETICAL[i]), Code(ALPHABETICAL[i + 1]))
  {
    var a, b := Code(ALPHABETICAL[i]), Code(ALPHABETICAL[i + 1]);
    var k := if i == 5 || i == 6 || i == 7 then 13 else if i == 4 then 1 else 0;
    assert LessAt(a, b, k);
  }

  lemma {:induction false} CodesAscend(i: nat, j: nat)
    requires i < j < |ALPHABETICAL|
    ensures Less(Code(ALPHABETICAL[i]), Code(ALPHABETICAL[j]))
  {
    hide Less;
    NextCode(j - 1);
    if i < j - 1 {
      CodesAscend(i, j - 1);
      LessTransitive(Code(ALPHABETICAL[i]), Code(ALPHABETICAL[j - 1]), Code(ALPHABETICAL[j]));
    }
  }

  lemma {:induction false} LaterCode(i: nat, f: Flag)
    requires i < |ALPHABETICAL| && f in ALPHABETICAL[i + 1..]
    ensures Less(Code(ALPHABETICAL[i]), Code(f))
  {
    var k :| 0 <= k < |ALPHABETICAL[i + 1..]| && ALPHABETICAL[i + 1..][k] == f;
    CodesAscend(i, i + 1 + k);
  }

  ghost predicate Ascending(flags: seq<Flag>) {
    forall i, j :: 0 <= i < j < |flags| ==> Less(Code(flags[i]), Code(flags[j]))
  }

  lemma {:induction false} SortedFromAscends(flags: set<Flag>, i: nat)
    requires i <= |ALPHABETICAL|
    ensures Ascending(SortedFrom(flags, i))
    decreases |ALPHABETICAL| - i
  {
    hide Less;
    if i < |ALPHABETICAL| {
      SortedFromAscends(flags, i + 1);
      var rest := SortedFrom(flags, i + 1);
      forall k | 0 <= k < |rest| ensures Less(Code(ALPHABETICAL[i]), Code(rest[k])) {
        assert rest[k] in rest;
        LaterCode(i, rest[k]);
      }
    }
  }

  /** Sorting a flag set lists exactly its members, each once, in the alphabetical order of their codes. */
  lemma {:induction false} SortedLists(flags: set<Flag>)
    ensures forall f :: f in Sorted(flags) <==> f in flags
    ensures Ascending(Sorted(flags)) && |Sorted(flags)| == |flags|
  {
    hide Less;
    SortedKeeps(flags);
    SortedFromAscends(flags, 0);
    AscendingIsDistinct(Sorted(flags));
    assert flags == set f | f in Sorted(flags);
    DistinctCount(Sorted(flags));
  }

  lemma {:induction false} AscendingIsDistinct(flags: seq<Flag>)
    requires Ascending(flags)
    ensures forall i, j :: 0 <= i < j < |flags| ==> flags[i] != flags[j]
  {
  }

  lemma {:induction false} DistinctCount(flags: seq<Flag>)
    requires forall i, j :: 0 <= i < j < |flags| ==> flags[i] != flags[j]
    ensures |set f | f in flags| == |flags|
  {
    if flags == [] {
      assert (set f | f in flags) == {};
    } else {
      var last, before := flags[|flags| - 1], flags[..|flags| - 1];
      DistinctCount(before);
      assert (set f | f in flags) == (set f | f in before) + {last};
    }
  }

  /** A maximal run of repeats is flagged as a whole exactly when it is long enough. */
  lemma {:induction false} MaximalRun(rows: seq<PriceRow>, lo: nat, hi: nat, k: nat)
    requires lo <= k < hi <= |rows| && AllRepeat(rows, lo, hi)
    requires !Repeats(rows, lo - 1) && !Repeats(rows, hi)
    ensures InStaleBlock(rows, k) <==> hi - lo >= 5
  {
    if InStaleBlock(rows, k) {
      var a, b :| a <= k < b && b - a >= STALE_RUN_MIN_LENGTH && AllRepeat(rows, a, b);
      assert a <= lo - 1 ==> Repeats(rows, lo - 1);
      assert hi < b ==> Repeats(rows, hi);
    }
  }

  // ---- The documented wording ----

  /** `n` consecutive rows from `first` on show one close, and all but the first of them traded. */
  ghost predicate EqualCloses(rows: seq<PriceRow>, first: int, n: int) {
    0 <= first && first + n <= |rows|
    && forall m :: first < m < first + n ==> rows[m].close == rows[first].close && rows[m].volume > 0
  }

  lemma {:induction false} RepeatsAreEqualCloses(rows: seq<PriceRow>, first: int, n: int)
    requires 1 <= n && 0 <= first && first + n <= |rows|
    ensures EqualCloses(rows, first, n) <==> AllRepeat(rows, first + 1, first + n)
    decreases n
  {
    if 1 < n {
      RepeatsAreEqualCloses(rows, first, n - 1);
      var last := first + n - 1;
      if AllRepeat(rows, first + 1, first + n) {
        assert Repeats(rows, last);
        assert EqualCloses(rows, first, n - 1);
      }
      if EqualCloses(rows, first, n) {
        assert EqualCloses(rows, first, n - 1);
        assert rows[last].close == rows[first].close;
        assert n > 2 ==> rows[last - 1].close == rows[first].close;
        assert Repeats(rows, last);
      }
    }
  }

  /**
   A row is stale exactly when it follows the first of at least six equal closes, the five last of them traded: one
   more than the five identical closes the documentation speaks of.
   */
  lemma {:induction false} StaleMeansSixEqualCloses(rows: seq<PriceRow>, k: int)
    ensures InStaleBlock(rows, k)
            <==> exists first, n :: first < k < first + n && 6 <= n && EqualCloses(rows, first, n)
  {
    if InStaleBlock(rows, k) {
      var lo, hi :| lo <= k < hi && hi - lo >= STALE_RUN_MIN_LENGTH && AllRepeat(rows, lo, hi);
      assert Repeats(rows, lo) && Repeats(rows, hi - 1);
      RepeatsAreEqualCloses(rows, lo - 1, hi - lo + 1);
    }
    if first, n :| first < k < first + n && 6 <= n && EqualCloses(rows, first, n) {
      RepeatsAreEqualCloses(rows, first, n);
      assert AllRepeat(rows, first + 1, first + n);
    }
  }
}
