/** The building list for one month (src/pages/BuildingList.tsx:18-42): each
    building that pays principal or depreciates in the target month, with
    this month's principal and depreciation. */
module BuildingList {
  import opened Property
  import opened Schedule
  import opened Aggregation
  import opened DrillDown

  /** A listed building with `今月元金` and `今月減価償却`. */
  datatype Row = Row(building: Property, principalThisMonth: Amount, depreciationThisMonth: Amount)

  /** `hasLoanPayment`: the target month lies in the contract-to-loan-end interval. */
  predicate HasLoanPayment(b: Property, target: Month)
  {
    b.contract <= target <= b.loanEnd
  }

  /** `hasDepreciation`: the target month lies in the depreciation interval. */
  predicate HasDepreciation(b: Property, target: Month)
  {
    b.contract <= target <= DepreciationEnd(b)
  }

  /** The row of a building that is listed: its own amount cell where the
      interval covers the month, and 0 otherwise. */
  function RowAt(b: Property, target: Month): Row
  {
    Row(b,
      if HasLoanPayment(b, target) then b.principal else Whole(0),
      if HasDepreciation(b, target) then b.depreciation else Whole(0))
  }

  /** `filtered`: the map to a row or `null`, then the filter of the nulls. */
  function Listed(data: seq<Property>, target: Month): (rows: seq<Row>)
    ensures |rows| <= |data|
  {
    if data == [] then []
    else
      var b := data[|data| - 1];
      var rows := Listed(data[..|data| - 1], target);
      if HasLoanPayment(b, target) || HasDepreciation(b, target) then rows + [RowAt(b, target)] else rows
  }

  /** The rows are exactly the buildings active in the month, each with its
      own fields and this month's amounts. */
  lemma {:induction false} ListedMembers(data: seq<Property>, target: Month, r: Row)
    ensures r in Listed(data, target) <==>
      && r.building in data
      && (HasLoanPayment(r.building, target) || HasDepreciation(r.building, target))
      && r == RowAt(r.building, target)
  {
    if data != [] {
      var init := data[..|data| - 1];
      ListedMembers(init, target, r);
      assert data == init + [data[|data| - 1]];
    }
  }

  /** Listing a concatenation lists each part in turn, so order is kept. */
  lemma {:induction false} ListedConcat(a: seq<Property>, b: seq<Property>, target: Month)
    ensures Listed(a + b, target) == Listed(a, target) + Listed(b, target)
  {
    if b == [] {
      assert a + b == a;
    } else {
      var b0 := b[..|b| - 1];
      assert (a + b)[..|a + b| - 1] == a + b0;
      assert (a + b)[|a + b| - 1] == b[|b| - 1];
      ListedConcat(a, b0, target);
    }
  }

  /** A building is not listed before its contract month. */
  lemma NotListedBeforeContract(data: seq<Property>, target: Month, b: Property)
    requires target < b.contract
    ensures forall r | r in Listed(data, target) :: r.building != b
  {
    forall r | r in Listed(data, target) ensures r.building != b {
      ListedMembers(data, target, r);
    }
  }

  /** The principal the list shows, each cell read as `parseInt(..) || 0`. */
  function PrincipalOfRows(rows: seq<Row>): int
  {
    if rows == [] then 0
    else PrincipalOfRows(rows[..|rows| - 1]) + CoerceOrZero(rows[|rows| - 1].principalThisMonth)
  }

  /** The depreciation the list shows, each cell read as `parseInt(..) || 0`. */
  function DepreciationOfRows(rows: seq<Row>): int
  {
    if rows == [] then 0
    else DepreciationOfRows(rows[..|rows| - 1]) + CoerceOrZero(rows[|rows| - 1].depreciationThisMonth)
  }

  /** The totals of one more row. */
  lemma RowsSnoc(rows: seq<Row>, r: Row)
    ensures PrincipalOfRows(rows + [r]) == PrincipalOfRows(rows) + CoerceOrZero(r.principalThisMonth)
    ensures DepreciationOfRows(rows + [r]) == DepreciationOfRows(rows) + CoerceOrZero(r.depreciationThisMonth)
  {
    assert (rows + [r])[..|rows + [r]| - 1] == rows;
  }

  /** Listing one more building. */
  lemma ListedSnoc(v: seq<Property>, b: Property, t: Month)
    ensures Listed(v + [b], t) == Listed(v, t) + (if HasLoanPayment(b, t) || HasDepreciation(b, t) then [RowAt(b, t)] else [])
  {
    assert (v + [b])[..|v + [b]| - 1] == v;
  }

  /** Filtering one more building. */
  lemma VisibleSnoc(init: seq<Property>, b: Property, sales: seq<Sale>, t: Month)
    ensures VisibleData(init + [b], sales, t) == VisibleData(init, sales, t) + (if VisibleAt(b, sales, t) then [b] else [])
  {
    assert (init + [b])[..|init + [b]| - 1] == init;
  }

  /** What one building contributes to the list is what it contributes to the
      chart, once both of its intervals are non-empty. */
  lemma RowAmounts(b: Property, sales: seq<Sale>, t: Month)
    requires LoanMonths(b) > 0 && DepreciationMonths(b) > 0
    ensures VisibleAt(b, sales, t) && (HasLoanPayment(b, t) || HasDepreciation(b, t)) ==>
      CoerceOrZero(RowAt(b, t).principalThisMonth) == PrincipalAt(b, sales, t) &&
      CoerceOrZero(RowAt(b, t).depreciationThisMonth) == DepreciationAt(b, sales, t)
    ensures !(VisibleAt(b, sales, t) && (HasLoanPayment(b, t) || HasDepreciation(b, t))) ==>
      PrincipalAt(b, sales, t) == 0 && DepreciationAt(b, sales, t) == 0
  {
  }

  /** The row one building adds, if it is visible and listed. */
  lemma ListStep(init: seq<Property>, b: Property, sales: seq<Sale>, t: Month)
    requires LoanMonths(b) > 0 && DepreciationMonths(b) > 0
    ensures PrincipalOfRows(Listed(VisibleData(init + [b], sales, t), t)) ==
      PrincipalOfRows(Listed(VisibleData(init, sales, t), t)) + PrincipalAt(b, sales, t)
    ensures DepreciationOfRows(Listed(VisibleData(init + [b], sales, t), t)) ==
      DepreciationOfRows(Listed(VisibleData(init, sales, t), t)) + DepreciationAt(b, sales, t)
  {
    var v := VisibleData(init, sales, t);
    VisibleSnoc(init, b, sales, t);
    RowAmounts(b, sales, t);
    if VisibleAt(b, sales, t) {
      ListedSnoc(v, b, t);
      if HasLoanPayment(b, t) || HasDepreciation(b, t) {
        RowsSnoc(Listed(v, t), RowAt(b, t));
      }
    } else {
      assert v + [] == v;
    }
  }

  /** The list agrees with the chart: for buildings whose two intervals are
      not empty, the principal and depreciation the list shows for a month
      sum to that month's chart totals. */
  lemma {:induction false} ListMatchesChart(data: seq<Property>, sales: seq<Sale>, t: Month)
    requires forall i | 0 <= i < |data| :: LoanMonths(data[i]) > 0 && DepreciationMonths(data[i]) > 0
    ensures PrincipalOfRows(Listed(VisibleData(data, sales, t), t)) == PrincipalSum(data, sales, t)
    ensures DepreciationOfRows(Listed(VisibleData(data, sales, t), t)) == DepreciationSum(data, sales, t)
  {
    if data != [] {
      var init := data[..|data| - 1];
      ListMatchesChart(init, sales, t);
      ListStep(init, data[|data| - 1], sales, t);
      assert init + [data[|data| - 1]] == data;
    }
  }

  /** Without the precondition the two disagree: a building with no useful
      life is skipped by the chart but its loan still shows in the list. */
  lemma ListShowsSkippedLoan()
    ensures var b := Property("A", 0, Whole(0), Whole(0), Whole(5), 11, "毎月");
      && PrincipalSum([b], [], 0) == 0
      && PrincipalOfRows(Listed(VisibleData([b], [], 0), 0)) == 5
  {
    var b := Property("A", 0, Whole(0), Whole(0), Whole(5), 11, "毎月");
    assert !Contributes(b);
    assert VisibleData([b], [], 0) == [b];
    assert Listed([b], 0) == [RowAt(b, 0)];
  }
}
