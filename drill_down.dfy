/** The chart's click handler (src/pages/GraphPage.tsx:486-502): the buildings
    handed to the building list for the hovered month are those already
    contracted and not yet sold in that month. */
module DrillDown {
  import opened Property
  import opened Schedule

  /** Neither "before the contract month" nor "in or after the sale month". */
  predicate VisibleAt(b: Property, sales: seq<Sale>, current: Month)
  {
    var sold := FirstSale(sales, b.name);
    !(current < b.contract) && !(sold.Some? && current >= sold.value)
  }

  /** `visibleData = data.filter(..)`. */
  function VisibleData(data: seq<Property>, sales: seq<Sale>, current: Month): (visible: seq<Property>)
    ensures |visible| <= |data|
  {
    if data == [] then []
    else
      var b := data[|data| - 1];
      VisibleData(data[..|data| - 1], sales, current) + (if VisibleAt(b, sales, current) then [b] else [])
  }

  /** The drill-down keeps exactly the buildings visible in the month. */
  lemma {:induction false} VisibleMembers(data: seq<Property>, sales: seq<Sale>, current: Month, b: Property)
    ensures b in VisibleData(data, sales, current) <==> b in data && VisibleAt(b, sales, current)
  {
    if data != [] {
      var init := data[..|data| - 1];
      VisibleMembers(init, sales, current, b);
      assert data == init + [data[|data| - 1]];
    }
  }

  /** Filtering a concatenation filters each part in turn, so order is kept. */
  lemma {:induction false} VisibleConcat(a: seq<Property>, b: seq<Property>, sales: seq<Sale>, current: Month)
    ensures VisibleData(a + b, sales, current) == VisibleData(a, sales, current) + VisibleData(b, sales, current)
  {
    if b == [] {
      assert a + b == a;
    } else {
      var b0 := b[..|b| - 1];
      assert (a + b)[..|a + b| - 1] == a + b0;
      assert (a + b)[|a + b| - 1] == b[|b| - 1];
      VisibleConcat(a, b0, sales, current);
    }
  }

  /** Every building the chart counts in a month is handed on for that month. */
  lemma ChartedIsVisible(data: seq<Property>, sales: seq<Sale>, current: Month, b: Property)
    requires b in data
    requires InLoan(b, sales, current) || InDepreciation(b, sales, current)
    ensures b in VisibleData(data, sales, current)
  {
    VisibleMembers(data, sales, current, b);
  }

  /** A sold building disappears from its sale month on; a building is never
      shown before its contract month. */
  lemma HiddenOutsideHolding(data: seq<Property>, sales: seq<Sale>, current: Month, b: Property)
    requires current < b.contract || (FirstSale(sales, b.name).Some? && FirstSale(sales, b.name).value <= current)
    ensures b !in VisibleData(data, sales, current)
  {
    VisibleMembers(data, sales, current, b);
  }
}
