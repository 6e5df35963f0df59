/** What the graph page draws from the dictionary (src/pages/GraphPage.tsx:203-250):
    the buckets sorted by month, the months whose principal outruns their
    depreciation by more than the threshold, the default display bounds and
    the bounded slice that is plotted. */
module Chart {
  import opened Property
  import opened Aggregation

  /** Some month of a non-empty set is no later than any other. */
  lemma {:induction false} EarliestExists(months: set<Month>)
    requires months != {}
    ensures exists m | m in months :: forall k | k in months :: m <= k
    decreases |months|
  {
    if forall k :: k !in months {
      assert false;
    }
    var x :| x in months;
    if months != {x} {
      var rest := months - {x};
      EarliestExists(rest);
      var m :| m in rest && forall k | k in rest :: m <= k;
      var least := if x < m then x else m;
      forall k | k in months ensures least <= k {
        if k != x {
          assert k in rest;
        }
      }
    }
  }

  /** The earliest month of a non-empty set. */
  function Earliest(months: set<Month>): (m: Month)
    requires months != {}
    ensures m in months && forall k | k in months :: m <= k
  {
    EarliestExists(months);
    var m :| m in months && forall k | k in months :: m <= k;
    m
  }

  /** Strictly increasing months, as a chart's x-axis is. */
  predicate Ascending(chart: seq<Bucket>)
  {
    forall i, j | 0 <= i < j < |chart| :: chart[i].month < chart[j].month
  }

  /** Removing a present key shrinks the dictionary by one. */
  lemma RemoveKey(monthly: map<Month, Bucket>, m: Month)
    requires m in monthly
    ensures |monthly - {m}| == |monthly| - 1
  {
    assert (monthly - {m}).Keys == monthly.Keys - {m};
  }

  /** Removing the earliest key: the rest is smaller, and prepending the
      earliest bucket to the rest's chart gives the chart of the whole. */
  lemma ChartStep(monthly: map<Month, Bucket>, m: Month, tail: seq<Bucket>)
    requires WellKeyed(monthly) && m in monthly && forall k | k in monthly :: m <= k
    requires |tail| == |monthly - {m}|
    requires Ascending(tail)
    requires forall i | 0 <= i < |tail| :: tail[i].month in monthly - {m} && tail[i] == (monthly - {m})[tail[i].month]
    requires forall k | k in monthly - {m} :: (monthly - {m})[k] in tail
    ensures var chart := [monthly[m]] + tail;
      && |chart| == |monthly|
      && Ascending(chart)
      && (forall i | 0 <= i < |chart| :: chart[i].month in monthly && chart[i] == monthly[chart[i].month])
      && (forall k | k in monthly :: monthly[k] in chart)
  {
    var rest := monthly - {m};
    RemoveKey(monthly, m);
    var chart := [monthly[m]] + tail;
    forall i | 0 <= i < |chart| ensures chart[i].month in monthly && chart[i] == monthly[chart[i].month] {
      if i > 0 {
        assert chart[i] == tail[i - 1];
      }
    }
    forall i, j | 0 <= i < j < |chart| ensures chart[i].month < chart[j].month {
      assert chart[j] == tail[j - 1];
      if i > 0 {
        assert chart[i] == tail[i - 1];
      }
    }
    forall k | k in monthly ensures monthly[k] in chart {
      if k != m {
        assert rest[k] in tail;
      }
    }
  }

  /** `Object.values(monthlyMap).sort(by month)`: every bucket once, earliest first. */
  function ChartData(monthly: map<Month, Bucket>): (chart: seq<Bucket>)
    requires WellKeyed(monthly)
    ensures |chart| == |monthly|
    ensures Ascending(chart)
    ensures forall i | 0 <= i < |chart| :: chart[i].month in monthly && chart[i] == monthly[chart[i].month]
    ensures forall k | k in monthly :: monthly[k] in chart
    decreases |monthly|
  {
    if |monthly| == 0 then []
    else
      var m := Earliest(monthly.Keys);
      var rest := monthly - {m};
      RemoveKey(monthly, m);
      var tail := ChartData(rest);
      ChartStep(monthly, m, tail);
      [monthly[m]] + tail
  }

  /** A highlighted stretch of the x-axis, `{ x1, x2 }`. */
  datatype Range = Range(x1: Month, x2: Month)

  /** The filter of `lowDiffAreas`: principal exceeds depreciation by more
      than `threshold` man-yen (units of 10000 yen). */
  predicate LowDiff(b: Bucket, threshold: int)
  {
    b.principalTotal - b.depreciationTotal > threshold * 10000
  }

  /** `highlightedRanges`: one month-wide range per qualifying bucket, in chart order. */
  function HighlightedRanges(chart: seq<Bucket>, threshold: int): (ranges: seq<Range>)
    ensures |ranges| <= |chart|
    ensures forall r | r in ranges :: r.x2 == r.x1 + 1
  {
    if chart == [] then []
    else
      var b := chart[|chart| - 1];
      HighlightedRanges(chart[..|chart| - 1], threshold) +
        (if LowDiff(b, threshold) then [Range(b.month, b.month + 1)] else [])
  }

  /** A month is highlighted exactly when some bucket of that month qualifies. */
  lemma {:induction false} HighlightMembers(chart: seq<Bucket>, threshold: int, m: Month)
    ensures Range(m, m + 1) in HighlightedRanges(chart, threshold) <==>
      exists i | 0 <= i < |chart| :: chart[i].month == m && LowDiff(chart[i], threshold)
  {
    if chart != [] {
      var init := chart[..|chart| - 1];
      HighlightMembers(init, threshold, m);
      assert forall i | 0 <= i < |init| :: init[i] == chart[i];
      if exists i | 0 <= i < |chart| :: chart[i].month == m && LowDiff(chart[i], threshold) {
        var i :| 0 <= i < |chart| && chart[i].month == m && LowDiff(chart[i], threshold);
        if i < |init| {
          assert init[i].month == m && LowDiff(init[i], threshold);
        }
      }
    }
  }

  /** Highlighting a concatenation highlights each part in turn. */
  lemma {:induction false} HighlightConcat(a: seq<Bucket>, b: seq<Bucket>, threshold: int)
    ensures HighlightedRanges(a + b, threshold) == HighlightedRanges(a, threshold) + HighlightedRanges(b, threshold)
  {
    if b == [] {
      assert a + b == a;
    } else {
      var b0 := b[..|b| - 1];
      assert (a + b)[..|a + b| - 1] == a + b0;
      assert (a + b)[|a + b| - 1] == b[|b| - 1];
      HighlightConcat(a, b0, threshold);
    }
  }

  /** Each range ends no later than the next one starts. */
  predicate InOrder(ranges: seq<Range>)
  {
    forall i, j | 0 <= i < j < |ranges| :: ranges[i].x2 <= ranges[j].x1
  }

  /** Over an ascending chart the ranges come in order and never overlap. */
  lemma {:induction false} HighlightsAscending(chart: seq<Bucket>, threshold: int)
    requires Ascending(chart)
    ensures InOrder(HighlightedRanges(chart, threshold))
    ensures forall r | r in HighlightedRanges(chart, threshold) :: exists i | 0 <= i < |chart| :: chart[i].month == r.x1
  {
    if chart != [] {
      var init := chart[..|chart| - 1];
      var b := chart[|chart| - 1];
      HighlightsAscending(init, threshold);
      var ri := HighlightedRanges(init, threshold);
      forall r | r in ri ensures r.x1 < b.month && exists i | 0 <= i < |chart| :: chart[i].month == r.x1 {
        var i :| 0 <= i < |init| && init[i].month == r.x1;
        assert chart[i].month == r.x1;
      }
      assert exists i | 0 <= i < |chart| :: chart[i].month == b.month by {
        assert chart[|chart| - 1].month == b.month;
      }
      var ranges := HighlightedRanges(chart, threshold);
      if LowDiff(b, threshold) {
        assert ranges == ri + [Range(b.month, b.month + 1)];
        forall i, j | 0 <= i < j < |ranges| ensures ranges[i].x2 <= ranges[j].x1 {
          assert ranges[i] == ri[i];
          if j == |ri| {
            assert ri[i] in ri;
          } else {
            assert ranges[j] == ri[j];
          }
        }
      } else {
        assert ranges == ri;
      }
    }
  }

  /** The earliest month a non-empty chart shows (`dayjs.min`). */
  function FirstMonth(chart: seq<Bucket>): (m: Month)
    requires chart != []
    ensures exists i | 0 <= i < |chart| :: chart[i].month == m
    ensures forall i | 0 <= i < |chart| :: m <= chart[i].month
  {
    if |chart| == 1 then chart[0].month
    else
      var init := chart[..|chart| - 1];
      var m := FirstMonth(init);
      assert forall i | 0 <= i < |init| :: init[i] == chart[i];
      if chart[|chart| - 1].month < m then chart[|chart| - 1].month else m
  }

  /** The latest month a non-empty chart shows (`dayjs.max`). */
  function LastMonth(chart: seq<Bucket>): (m: Month)
    requires chart != []
    ensures exists i | 0 <= i < |chart| :: chart[i].month == m
    ensures forall i | 0 <= i < |chart| :: chart[i].month <= m
  {
    if |chart| == 1 then chart[0].month
    else
      var init := chart[..|chart| - 1];
      var m := LastMonth(init);
      assert forall i | 0 <= i < |init| :: init[i] == chart[i];
      if chart[|chart| - 1].month > m then chart[|chart| - 1].month else m
  }

  /** The display bounds: the chart's earliest and latest month, or
      "2000-01" to "2100-01" when there is nothing to show. */
  function DefaultBounds(chart: seq<Bucket>): (bounds: (Month, Month))
    ensures chart == [] ==> bounds == (MonthOf(2000, 1), MonthOf(2100, 1))
    ensures chart != [] ==> forall i | 0 <= i < |chart| :: bounds.0 <= chart[i].month <= bounds.1
    ensures chart != [] ==>
      (exists i | 0 <= i < |chart| :: chart[i].month == bounds.0) &&
      (exists i | 0 <= i < |chart| :: chart[i].month == bounds.1)
  {
    if chart == [] then (MonthOf(2000, 1), MonthOf(2100, 1)) else (FirstMonth(chart), LastMonth(chart))
  }

  /** For a sorted chart the bounds are its first and last months. */
  lemma AscendingBounds(chart: seq<Bucket>)
    requires Ascending(chart) && chart != []
    ensures DefaultBounds(chart) == (chart[0].month, chart[|chart| - 1].month)
  {
    var (lo, hi) := DefaultBounds(chart);
    var i :| 0 <= i < |chart| && chart[i].month == lo;
    var j :| 0 <= j < |chart| && chart[j].month == hi;
    assert chart[0].month <= chart[i].month;
    assert chart[j].month <= chart[|chart| - 1].month;
  }

  /** `filterdData`: the buckets from `startMonth` through `endMonth` inclusive. */
  function RangeFilter(chart: seq<Bucket>, startMonth: Month, endMonth: Month): (shown: seq<Bucket>)
    ensures |shown| <= |chart|
  {
    if chart == [] then []
    else
      var b := chart[|chart| - 1];
      RangeFilter(chart[..|chart| - 1], startMonth, endMonth) +
        (if startMonth <= b.month <= endMonth then [b] else [])
  }

  /** The filter keeps exactly the buckets whose month lies in the bounds. */
  lemma {:induction false} RangeFilterMembers(chart: seq<Bucket>, startMonth: Month, endMonth: Month, b: Bucket)
    ensures b in RangeFilter(chart, startMonth, endMonth) <==> b in chart && startMonth <= b.month <= endMonth
  {
    if chart != [] {
      var init := chart[..|chart| - 1];
      RangeFilterMembers(init, startMonth, endMonth, b);
      assert chart == init + [chart[|chart| - 1]];
    }
  }

  /** Filtering a concatenation filters each part in turn, so order is kept. */
  lemma {:induction false} RangeFilterConcat(a: seq<Bucket>, b: seq<Bucket>, startMonth: Month, endMonth: Month)
    ensures RangeFilter(a + b, startMonth, endMonth) ==
      RangeFilter(a, startMonth, endMonth) + RangeFilter(b, startMonth, endMonth)
  {
    if b == [] {
      assert a + b == a;
    } else {
      var b0 := b[..|b| - 1];
      assert (a + b)[..|a + b| - 1] == a + b0;
      assert (a + b)[|a + b| - 1] == b[|b| - 1];
      RangeFilterConcat(a, b0, startMonth, endMonth);
    }
  }

  /** A chart already inside the bounds is shown whole. */
  lemma {:induction false} RangeFilterKeepsInside(chart: seq<Bucket>, startMonth: Month, endMonth: Month)
    requires forall i | 0 <= i < |chart| :: startMonth <= chart[i].month <= endMonth
    ensures RangeFilter(chart, startMonth, endMonth) == chart
  {
    if chart != [] {
      var init := chart[..|chart| - 1];
      assert forall i | 0 <= i < |init| :: init[i] == chart[i];
      RangeFilterKeepsInside(init, startMonth, endMonth);
      assert init + [chart[|chart| - 1]] == chart;
    }
  }

  /** Filtering twice with the same bounds is filtering once. */
  lemma RangeFilterIdempotent(chart: seq<Bucket>, startMonth: Month, endMonth: Month)
    ensures RangeFilter(RangeFilter(chart, startMonth, endMonth), startMonth, endMonth) ==
      RangeFilter(chart, startMonth, endMonth)
  {
    var shown := RangeFilter(chart, startMonth, endMonth);
    forall i | 0 <= i < |shown| ensures startMonth <= shown[i].month <= endMonth {
      RangeFilterMembers(chart, startMonth, endMonth, shown[i]);
    }
    RangeFilterKeepsInside(shown, startMonth, endMonth);
  }

  /** With the default bounds the whole chart is shown. */
  lemma DefaultBoundsShowAll(chart: seq<Bucket>)
    ensures RangeFilter(chart, DefaultBounds(chart).0, DefaultBounds(chart).1) == chart
  {
    if chart != [] {
      RangeFilterKeepsInside(chart, DefaultBounds(chart).0, DefaultBounds(chart).1);
    }
  }

  /** Filtering keeps an ascending chart ascending. */
  lemma {:induction false} RangeFilterAscending(chart: seq<Bucket>, startMonth: Month, endMonth: Month)
    requires Ascending(chart)
    ensures Ascending(RangeFilter(chart, startMonth, endMonth))
  {
    if chart != [] {
      var init := chart[..|chart| - 1];
      var b := chart[|chart| - 1];
      RangeFilterAscending(init, startMonth, endMonth);
      var si := RangeFilter(init, startMonth, endMonth);
      forall x | x in si ensures x.month < b.month {
        RangeFilterMembers(init, startMonth, endMonth, x);
        var i :| 0 <= i < |init| && init[i] == x;
        assert chart[i] == x;
      }
      var shown := RangeFilter(chart, startMonth, endMonth);
      forall i, j | 0 <= i < j < |shown| ensures shown[i].month < shown[j].month {
        if j >= |si| {
          assert shown[i] in si;
        }
      }
    }
  }
}
