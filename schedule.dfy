/** Per-asset schedule derivation (src/pages/GraphPage.tsx, the body of the
    `data.forEach` callback): which months an asset pays principal in, which
    months it depreciates in, and which event labels it attaches where. */
module Schedule {
  import opened Property

  function Years(p: Property): int { CoerceOrZero(p.usefulLife) }
  function MonthlyPrincipal(p: Property): int { CoerceOrZero(p.principal) }
  function MonthlyDepreciation(p: Property): int { CoerceOrZero(p.depreciation) }

  /** `contractStart.add(years, "year").subtract(1, "month")`. */
  function DepreciationEnd(p: Property): Month { p.contract + 12 * Years(p) - 1 }

  /** `loanEnd.diff(contractStart, "month") + 1`. */
  function LoanMonths(p: Property): int { p.loanEnd - p.contract + 1 }

  /** `depreciationEnd.diff(contractStart, "month") + 1`. */
  function DepreciationMonths(p: Property): int { DepreciationEnd(p) - p.contract + 1 }

  /** The asset passes both early returns of the callback: neither interval is
      degenerate and not both monthly amounts coerce to zero. */
  predicate Contributes(p: Property)
  {
    && LoanMonths(p) > 0
    && DepreciationMonths(p) > 0
    && !(MonthlyDepreciation(p) == 0 && MonthlyPrincipal(p) == 0)
  }

  /** No sale applies to the asset at month m (only the first sale with the
      asset's name is consulted). */
  predicate BeforeSale(p: Property, sales: seq<Sale>, m: Month)
  {
    var s := FirstSale(sales, p.name);
    s.None? || m < s.value
  }

  /** Month m receives this asset's principal. */
  predicate InLoan(p: Property, sales: seq<Sale>, m: Month)
  {
    Contributes(p) && p.contract <= m <= p.loanEnd && BeforeSale(p, sales, m)
  }

  /** Month m receives this asset's depreciation. */
  predicate InDepreciation(p: Property, sales: seq<Sale>, m: Month)
  {
    Contributes(p) && p.contract <= m <= DepreciationEnd(p) && BeforeSale(p, sales, m)
  }

  function PrincipalAt(p: Property, sales: seq<Sale>, m: Month): int
  {
    if InLoan(p, sales, m) then MonthlyPrincipal(p) else 0
  }

  function DepreciationAt(p: Property, sales: seq<Sale>, m: Month): int
  {
    if InDepreciation(p, sales, m) then MonthlyDepreciation(p) else 0
  }

  function Increase(name: string): string { name + "：増加" }
  function Decrease(name: string): string { name + "：減少" }
  function SoldLabel(name: string): string { name + "：売却" }

  /** The asset has a sale, and it falls in month m. */
  predicate SoldIn(p: Property, sales: seq<Sale>, m: Month)
  {
    FirstSale(sales, p.name) == Some(m)
  }

  /** The asset calls `ensureMonthlyMap` on month m: the contract month, the
      month after the loan end, the month after the depreciation end, and the
      sale month. */
  predicate Touches(p: Property, sales: seq<Sale>, m: Month)
  {
    Contributes(p) &&
    (m == p.contract || m == p.loanEnd + 1 || m == DepreciationEnd(p) + 1 || SoldIn(p, sales, m))
  }

  /** The labels the asset pushes onto `元金イベント` at month m, in push order. */
  function PrincipalEventsAt(p: Property, sales: seq<Sale>, m: Month): seq<string>
  {
    if !Contributes(p) then []
    else
      (if m == p.contract then [Increase(p.name)] else []) +
      (if m == p.loanEnd + 1 then [Decrease(p.name)] else []) +
      (if SoldIn(p, sales, m) then [SoldLabel(p.name)] else [])
  }

  /** The labels the asset pushes onto `減価償却イベント` at month m, in push order. */
  function DepreciationEventsAt(p: Property, sales: seq<Sale>, m: Month): seq<string>
  {
    if !Contributes(p) then []
    else
      (if m == p.contract then [Increase(p.name)] else []) +
      (if m == DepreciationEnd(p) + 1 then [Decrease(p.name)] else []) +
      (if SoldIn(p, sales, m) then [SoldLabel(p.name)] else [])
  }

  /** Every month in which the asset creates or touches a bucket. */
  function ScheduleMonths(p: Property, sales: seq<Sale>): set<Month>
  {
    if !Contributes(p) then {}
    else
      (set m | p.contract <= m <= p.loanEnd && InLoan(p, sales, m)) +
      (set m | p.contract <= m <= DepreciationEnd(p) && InDepreciation(p, sales, m)) +
      {p.contract, p.loanEnd + 1, DepreciationEnd(p) + 1} +
      (var s := FirstSale(sales, p.name); if s.Some? then {s.value} else {})
  }

  /** The asset's months are those it pays in, depreciates in, or labels. */
  lemma ScheduleMonthsMembers(p: Property, sales: seq<Sale>)
    ensures forall m :: m in ScheduleMonths(p, sales) <==>
      InLoan(p, sales, m) || InDepreciation(p, sales, m) || Touches(p, sales, m)
  {
  }

  lemma NoEventsWithoutTouch(p: Property, sales: seq<Sale>, m: Month)
    requires !Touches(p, sales, m)
    ensures PrincipalEventsAt(p, sales, m) == [] && DepreciationEventsAt(p, sales, m) == []
  {
  }

  /** A contributing asset carries its increase label at the contract month and
      its decrease labels one month after each natural end, whether or not it
      was sold earlier; a sold asset carries its sale label at the sale month. */
  lemma LabelsPlacement(p: Property, sales: seq<Sale>)
    requires Contributes(p)
    ensures Increase(p.name) in PrincipalEventsAt(p, sales, p.contract)
    ensures Increase(p.name) in DepreciationEventsAt(p, sales, p.contract)
    ensures Decrease(p.name) in PrincipalEventsAt(p, sales, p.loanEnd + 1)
    ensures Decrease(p.name) in DepreciationEventsAt(p, sales, DepreciationEnd(p) + 1)
    ensures forall s :: FirstSale(sales, p.name) == Some(s) ==>
      SoldLabel(p.name) in PrincipalEventsAt(p, sales, s) &&
      SoldLabel(p.name) in DepreciationEventsAt(p, sales, s)
  {
  }

  /** Sale truncation: nothing is paid or depreciated in or after the sale month,
      and a sale at or before the contract month removes every amount. */
  lemma SaleTruncation(p: Property, sales: seq<Sale>, s: Month, m: Month)
    requires FirstSale(sales, p.name) == Some(s)
    requires s <= m || s <= p.contract
    ensures PrincipalAt(p, sales, m) == 0 && DepreciationAt(p, sales, m) == 0
  {
  }

  /** The last month (exclusive) in which the loan interval still pays, after sale truncation. */
  function LoanStop(p: Property, sales: seq<Sale>): Month
  {
    var s := FirstSale(sales, p.name);
    if s.Some? && s.value <= p.loanEnd then (if s.value < p.contract then p.contract else s.value)
    else p.loanEnd + 1
  }

  /** The last month (exclusive) in which the depreciation interval still counts. */
  function DepreciationStop(p: Property, sales: seq<Sale>): Month
  {
    var s := FirstSale(sales, p.name);
    if s.Some? && s.value <= DepreciationEnd(p) then (if s.value < p.contract then p.contract else s.value)
    else DepreciationEnd(p) + 1
  }

  /** Sum of the asset's principal over the n months starting at `from`. */
  function PrincipalOver(p: Property, sales: seq<Sale>, from: Month, n: nat): int
  {
    if n == 0 then 0 else PrincipalOver(p, sales, from, n - 1) + PrincipalAt(p, sales, from + n - 1)
  }

  /** Sum of the asset's depreciation over the n months starting at `from`. */
  function DepreciationOver(p: Property, sales: seq<Sale>, from: Month, n: nat): int
  {
    if n == 0 then 0 else DepreciationOver(p, sales, from, n - 1) + DepreciationAt(p, sales, from + n - 1)
  }

  lemma {:induction false} PrincipalPrefix(p: Property, sales: seq<Sale>, n: nat)
    requires Contributes(p) && n <= LoanMonths(p)
    ensures PrincipalOver(p, sales, p.contract, n) ==
      MonthlyPrincipal(p) * (if p.contract + n <= LoanStop(p, sales) then n else LoanStop(p, sales) - p.contract)
  {
    if n > 0 {
      PrincipalPrefix(p, sales, n - 1);
    }
  }

  lemma {:induction false} DepreciationPrefix(p: Property, sales: seq<Sale>, n: nat)
    requires Contributes(p) && n <= DepreciationMonths(p)
    ensures DepreciationOver(p, sales, p.contract, n) ==
      MonthlyDepreciation(p) * (if p.contract + n <= DepreciationStop(p, sales) then n else DepreciationStop(p, sales) - p.contract)
  {
    if n > 0 {
      DepreciationPrefix(p, sales, n - 1);
    }
  }

  /** Conservation: over its loan interval a contributing asset pays its monthly
      principal once for each month before the sale stop, which is every month
      of the interval when it is not sold. */
  lemma PrincipalConservation(p: Property, sales: seq<Sale>)
    requires Contributes(p)
    ensures p.contract <= LoanStop(p, sales) <= p.loanEnd + 1
    ensures PrincipalOver(p, sales, p.contract, LoanMonths(p)) ==
      MonthlyPrincipal(p) * (LoanStop(p, sales) - p.contract)
    ensures FirstSale(sales, p.name).None? ==>
      PrincipalOver(p, sales, p.contract, LoanMonths(p)) == MonthlyPrincipal(p) * LoanMonths(p)
  {
    PrincipalPrefix(p, sales, LoanMonths(p));
  }

  /** Conservation for depreciation: `12 * years` monthly amounts when unsold. */
  lemma DepreciationConservation(p: Property, sales: seq<Sale>)
    requires Contributes(p)
    ensures p.contract <= DepreciationStop(p, sales) <= DepreciationEnd(p) + 1
    ensures DepreciationOver(p, sales, p.contract, DepreciationMonths(p)) ==
      MonthlyDepreciation(p) * (DepreciationStop(p, sales) - p.contract)
    ensures FirstSale(sales, p.name).None? ==>
      DepreciationOver(p, sales, p.contract, DepreciationMonths(p)) == MonthlyDepreciation(p) * (12 * Years(p))
  {
    DepreciationPrefix(p, sales, DepreciationMonths(p));
  }

  /** A worked example: a loan from 2021-06 through 2021-08 at 100 a month,
      two years of depreciation at 50 a month, no sale. */
  lemma ExampleUnsold(p: Property)
    requires p == Property("X", MonthOf(2021, 6), Whole(50), Whole(2), Whole(100), MonthOf(2021, 8), "毎月")
    ensures forall m :: PrincipalAt(p, [], m) == if MonthOf(2021, 6) <= m <= MonthOf(2021, 8) then 100 else 0
    ensures forall m :: DepreciationAt(p, [], m) == if MonthOf(2021, 6) <= m <= MonthOf(2023, 5) then 50 else 0
    ensures PrincipalEventsAt(p, [], MonthOf(2021, 6)) == [Increase("X")]
    ensures DepreciationEventsAt(p, [], MonthOf(2021, 6)) == [Increase("X")]
    ensures PrincipalEventsAt(p, [], MonthOf(2021, 9)) == [Decrease("X")]
    ensures DepreciationEventsAt(p, [], MonthOf(2023, 6)) == [Decrease("X")]
  {
  }

  /** The same asset sold on a day of 2021-07: only 2021-06 counts, and the sale
      label sits at 2021-07 in both lists. */
  lemma ExampleSold(p: Property, sales: seq<Sale>)
    requires p == Property("X", MonthOf(2021, 6), Whole(50), Whole(2), Whole(100), MonthOf(2021, 8), "毎月")
    requires sales == [Sale("X", MonthOf(2021, 7))]
    ensures forall m :: PrincipalAt(p, sales, m) == if m == MonthOf(2021, 6) then 100 else 0
    ensures forall m :: DepreciationAt(p, sales, m) == if m == MonthOf(2021, 6) then 50 else 0
    ensures PrincipalEventsAt(p, sales, MonthOf(2021, 7)) == [SoldLabel("X")]
    ensures DepreciationEventsAt(p, sales, MonthOf(2021, 7)) == [SoldLabel("X")]
  {
  }
}
