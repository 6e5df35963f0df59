/** The monthly aggregator (src/pages/GraphPage.tsx:112-201): every asset's
    schedule is merged into one dictionary from month to bucket. `Expected`
    says what the dictionary holds; `Aggregate` builds it the way the source
    does, by mutating the dictionary asset by asset and month by month. */
module Aggregation {
  import opened Property
  import opened Schedule

  /** `MonthlyData`: the month key, the two sums, and the two optional label lists. */
  datatype Bucket = Bucket(
    month: Month,
    depreciationTotal: int,
    principalTotal: int,
    depreciationEvents: Option<seq<string>>,
    principalEvents: Option<seq<string>>)

  /** `元金合計` of month m: the principal of every asset paying in m. */
  function PrincipalSum(ds: seq<Property>, sales: seq<Sale>, m: Month): int
  {
    if ds == [] then 0
    else PrincipalSum(ds[..|ds| - 1], sales, m) + PrincipalAt(ds[|ds| - 1], sales, m)
  }

  /** `減価償却合計` of month m: the depreciation of every asset depreciating in m. */
  function DepreciationSum(ds: seq<Property>, sales: seq<Sale>, m: Month): int
  {
    if ds == [] then 0
    else DepreciationSum(ds[..|ds| - 1], sales, m) + DepreciationAt(ds[|ds| - 1], sales, m)
  }

  /** `元金イベント` of month m: the assets' labels, in asset order. */
  function PrincipalEvents(ds: seq<Property>, sales: seq<Sale>, m: Month): seq<string>
  {
    if ds == [] then []
    else PrincipalEvents(ds[..|ds| - 1], sales, m) + PrincipalEventsAt(ds[|ds| - 1], sales, m)
  }

  /** `減価償却イベント` of month m. */
  function DepreciationEvents(ds: seq<Property>, sales: seq<Sale>, m: Month): seq<string>
  {
    if ds == [] then []
    else DepreciationEvents(ds[..|ds| - 1], sales, m) + DepreciationEventsAt(ds[|ds| - 1], sales, m)
  }

  /** Some asset called `ensureMonthlyMap` on month m, so both label lists exist. */
  predicate Touched(ds: seq<Property>, sales: seq<Sale>, m: Month)
  {
    ds != [] && (Touched(ds[..|ds| - 1], sales, m) || Touches(ds[|ds| - 1], sales, m))
  }

  /** The keys of the dictionary. */
  function Months(ds: seq<Property>, sales: seq<Sale>): set<Month>
  {
    if ds == [] then {} else Months(ds[..|ds| - 1], sales) + ScheduleMonths(ds[|ds| - 1], sales)
  }

  /** The dictionary after every asset of ds has been folded in. */
  function Expected(ds: seq<Property>, sales: seq<Sale>): (monthly: map<Month, Bucket>)
    ensures forall m | m in monthly :: monthly[m].month == m
  {
    map m | m in Months(ds, sales) ::
      Bucket(m,
        DepreciationSum(ds, sales, m),
        PrincipalSum(ds, sales, m),
        if Touched(ds, sales, m) then Some(DepreciationEvents(ds, sales, m)) else None,
        if Touched(ds, sales, m) then Some(PrincipalEvents(ds, sales, m)) else None)
  }

  /** Each bucket sits under its own month: `monthlyMap[month] = { month, .. }`. */
  predicate WellKeyed(monthly: map<Month, Bucket>)
  {
    forall m | m in monthly :: monthly[m].month == m
  }

  /** The bucket `monthlyMap[m]` as the next asset finds it: the existing one, or
      the fresh `{ month, 減価償却合計: 0, 元金合計: 0 }`. */
  function Existing(monthly: map<Month, Bucket>, m: Month): Bucket
  {
    if m in monthly then monthly[m] else Bucket(m, 0, 0, None, None)
  }

  function OrEmpty(labels: Option<seq<string>>): seq<string>
  {
    if labels.Some? then labels.value else []
  }

  /** The labels one asset attaches to a bucket: where it touches the month,
      both label lists come into existence and receive its labels. */
  function Labelled(b: Bucket, p: Property, sales: seq<Sale>): Bucket
  {
    if Touches(p, sales, b.month) then
      b.(depreciationEvents := Some(OrEmpty(b.depreciationEvents) + DepreciationEventsAt(p, sales, b.month)),
         principalEvents := Some(OrEmpty(b.principalEvents) + PrincipalEventsAt(p, sales, b.month)))
    else b
  }

  /** What one asset does to one bucket: adds its amounts, then its labels. */
  function WithAsset(b: Bucket, p: Property, sales: seq<Sale>): Bucket
  {
    var m := b.month;
    Labelled(AddDepreciationAmount(AddPrincipalAmount(b, PrincipalAt(p, sales, m)), DepreciationAt(p, sales, m)), p, sales)
  }

  /** A month outside the dictionary has no amounts and no labels. */
  lemma {:induction false} OutsideIsEmpty(ds: seq<Property>, sales: seq<Sale>, m: Month)
    requires m !in Months(ds, sales)
    ensures PrincipalSum(ds, sales, m) == 0 && DepreciationSum(ds, sales, m) == 0
    ensures !Touched(ds, sales, m)
  {
    if ds != [] {
      OutsideIsEmpty(ds[..|ds| - 1], sales, m);
    }
  }

  /** A month no asset touched has empty label lists. */
  lemma {:induction false} UntouchedHasNoLabels(ds: seq<Property>, sales: seq<Sale>, m: Month)
    requires !Touched(ds, sales, m)
    ensures PrincipalEvents(ds, sales, m) == [] && DepreciationEvents(ds, sales, m) == []
  {
    if ds != [] {
      UntouchedHasNoLabels(ds[..|ds| - 1], sales, m);
      NoEventsWithoutTouch(ds[|ds| - 1], sales, m);
    }
  }

  /** One more asset adds its amounts and labels to the sums and lists of each month. */
  lemma SnocAt(ds: seq<Property>, p: Property, sales: seq<Sale>, m: Month)
    ensures PrincipalSum(ds + [p], sales, m) == PrincipalSum(ds, sales, m) + PrincipalAt(p, sales, m)
    ensures DepreciationSum(ds + [p], sales, m) == DepreciationSum(ds, sales, m) + DepreciationAt(p, sales, m)
    ensures PrincipalEvents(ds + [p], sales, m) == PrincipalEvents(ds, sales, m) + PrincipalEventsAt(p, sales, m)
    ensures DepreciationEvents(ds + [p], sales, m) == DepreciationEvents(ds, sales, m) + DepreciationEventsAt(p, sales, m)
    ensures Touched(ds + [p], sales, m) == (Touched(ds, sales, m) || Touches(p, sales, m))
    ensures Months(ds + [p], sales) == Months(ds, sales) + ScheduleMonths(p, sales)
  {
    assert (ds + [p])[..|ds + [p]| - 1] == ds;
  }

  /** The bucket of month m after one more asset is the old bucket (or a fresh
      one) with that asset's amounts and labels added. */
  lemma SnocBucket(ds: seq<Property>, p: Property, sales: seq<Sale>, m: Month)
    requires m in Expected(ds + [p], sales)
    ensures Expected(ds + [p], sales)[m] == WithAsset(Existing(Expected(ds, sales), m), p, sales)
  {
    SnocAt(ds, p, sales, m);
    if m !in Months(ds, sales) {
      OutsideIsEmpty(ds, sales, m);
    }
    SnocLabels(ds, p, sales, m);
    var e1, w := Expected(ds + [p], sales)[m], WithAsset(Existing(Expected(ds, sales), m), p, sales);
    assert e1.month == w.month && e1.principalTotal == w.principalTotal && e1.depreciationTotal == w.depreciationTotal;
  }

  /** The label lists part of `SnocBucket`. */
  lemma SnocLabels(ds: seq<Property>, p: Property, sales: seq<Sale>, m: Month)
    requires m in Expected(ds + [p], sales)
    ensures Expected(ds + [p], sales)[m].principalEvents == WithAsset(Existing(Expected(ds, sales), m), p, sales).principalEvents
    ensures Expected(ds + [p], sales)[m].depreciationEvents == WithAsset(Existing(Expected(ds, sales), m), p, sales).depreciationEvents
  {
    SnocAt(ds, p, sales, m);
    var b0 := Existing(Expected(ds, sales), m);
    if m !in Months(ds, sales) {
      OutsideIsEmpty(ds, sales, m);
    }
    var touched := Touched(ds, sales, m);
    var pe, de := PrincipalEvents(ds, sales, m), DepreciationEvents(ds, sales, m);
    assert b0.principalEvents == if touched then Some(pe) else None;
    assert b0.depreciationEvents == if touched then Some(de) else None;
    if !touched {
      UntouchedHasNoLabels(ds, sales, m);
    }
    assert OrEmpty(b0.principalEvents) == pe && OrEmpty(b0.depreciationEvents) == de;
    var e1 := Expected(ds + [p], sales)[m];
    var w := WithAsset(b0, p, sales);
    if Touches(p, sales, m) {
      assert e1.principalEvents == Some(pe + PrincipalEventsAt(p, sales, m)) == w.principalEvents;
      assert e1.depreciationEvents == Some(de + DepreciationEventsAt(p, sales, m)) == w.depreciationEvents;
    } else {
      NoEventsWithoutTouch(p, sales, m);
      assert pe + [] == pe && de + [] == de;
      assert e1.principalEvents == b0.principalEvents == w.principalEvents;
      assert e1.depreciationEvents == b0.depreciationEvents == w.depreciationEvents;
    }
  }

  /** Folding in one more asset changes every bucket exactly as `WithAsset` says
      and adds the asset's schedule months as keys. */
  lemma ExpectedSnoc(ds: seq<Property>, p: Property, sales: seq<Sale>)
    ensures forall m :: m in Expected(ds + [p], sales) <==> m in Expected(ds, sales) || m in ScheduleMonths(p, sales)
    ensures forall m | m in Expected(ds + [p], sales) ::
      Expected(ds + [p], sales)[m] == WithAsset(Existing(Expected(ds, sales), m), p, sales)
  {
    SnocAt(ds, p, sales, 0);
    forall m | m in Expected(ds + [p], sales)
      ensures Expected(ds + [p], sales)[m] == WithAsset(Existing(Expected(ds, sales), m), p, sales)
    {
      SnocBucket(ds, p, sales, m);
    }
  }

  /** A skipped asset leaves the dictionary exactly as it was. */
  lemma SkippedAssetHasNoEffect(ds: seq<Property>, p: Property, sales: seq<Sale>)
    requires !Contributes(p)
    ensures Expected(ds + [p], sales) == Expected(ds, sales)
  {
    ExpectedSnoc(ds, p, sales);
    var e0, e1 := Expected(ds, sales), Expected(ds + [p], sales);
    forall m | m in e1 ensures e1[m] == e0[m] {
    }
  }

  /** `ensureMonthlyMap(month)`: the bucket exists afterwards with both label
      lists; nothing else, and none of its sums or labels, changes. */
  function EnsureBucket(monthly: map<Month, Bucket>, month: Month): (r: map<Month, Bucket>)
    ensures forall m :: m in r <==> m in monthly || m == month
    ensures r[month].month == Existing(monthly, month).month
    ensures r[month].principalTotal == Existing(monthly, month).principalTotal
    ensures r[month].depreciationTotal == Existing(monthly, month).depreciationTotal
    ensures r[month].principalEvents == Some(OrEmpty(Existing(monthly, month).principalEvents))
    ensures r[month].depreciationEvents == Some(OrEmpty(Existing(monthly, month).depreciationEvents))
    ensures forall m | m in monthly && m != month :: r[m] == monthly[m]
  {
    if month !in monthly then
      monthly[month := Bucket(month, 0, 0, Some([]), Some([]))]
    else
      var b := monthly[month];
      monthly[month := b.(depreciationEvents := Some(OrEmpty(b.depreciationEvents)),
                          principalEvents := Some(OrEmpty(b.principalEvents)))]
  }

  /** `monthlyMap[month]["元金イベント"]!.push(text)`. */
  function PushPrincipalEvent(monthly: map<Month, Bucket>, month: Month, text: string): (r: map<Month, Bucket>)
    requires month in monthly && monthly[month].principalEvents.Some?
    ensures forall m :: m in r <==> m in monthly
    ensures r[month] == monthly[month].(principalEvents := Some(monthly[month].principalEvents.value + [text]))
    ensures forall m | m in monthly && m != month :: r[m] == monthly[m]
  {
    var b := monthly[month];
    monthly[month := b.(principalEvents := Some(b.principalEvents.value + [text]))]
  }

  /** `monthlyMap[month]["減価償却イベント"]!.push(text)`. */
  function PushDepreciationEvent(monthly: map<Month, Bucket>, month: Month, text: string): (r: map<Month, Bucket>)
    requires month in monthly && monthly[month].depreciationEvents.Some?
    ensures forall m :: m in r <==> m in monthly
    ensures r[month] == monthly[month].(depreciationEvents := Some(monthly[month].depreciationEvents.value + [text]))
    ensures forall m | m in monthly && m != month :: r[m] == monthly[m]
  {
    var b := monthly[month];
    monthly[month := b.(depreciationEvents := Some(b.depreciationEvents.value + [text]))]
  }

  /** A bucket after `ensureMonthlyMap` and pushes of `pl` onto `元金イベント` and
      of `dl` onto `減価償却イベント`. */
  function AddLabels(b: Bucket, pl: seq<string>, dl: seq<string>): Bucket
  {
    b.(principalEvents := Some(OrEmpty(b.principalEvents) + pl),
       depreciationEvents := Some(OrEmpty(b.depreciationEvents) + dl))
  }

  function AddLabelsIf(b: Bucket, hit: bool, pl: seq<string>, dl: seq<string>): Bucket
  {
    if hit then AddLabels(b, pl, dl) else b
  }

  /** The labels of one asset, attached one `ensureMonthlyMap` call at a time. */
  function LabelSteps(b: Bucket, p: Property, sales: seq<Sale>): Bucket
  {
    var m := b.month;
    var s := FirstSale(sales, p.name);
    var b1 := AddLabelsIf(b, m == p.contract, [Increase(p.name)], [Increase(p.name)]);
    var b2 := AddLabelsIf(b1, m == p.loanEnd + 1, [Decrease(p.name)], []);
    var b3 := AddLabelsIf(b2, m == DepreciationEnd(p) + 1, [], [Decrease(p.name)]);
    AddLabelsIf(b3, s.Some? && m == s.value, [SoldLabel(p.name)], [SoldLabel(p.name)])
  }

  lemma AddLabelsTwice(b: Bucket, p1: seq<string>, d1: seq<string>, p2: seq<string>, d2: seq<string>)
    ensures AddLabels(AddLabels(b, p1, d1), p2, d2) == AddLabels(b, p1 + p2, d1 + d2)
  {
    assert OrEmpty(b.principalEvents) + p1 + p2 == OrEmpty(b.principalEvents) + (p1 + p2);
    assert OrEmpty(b.depreciationEvents) + d1 + d2 == OrEmpty(b.depreciationEvents) + (d1 + d2);
  }

  /** Attaching the labels step by step gives the asset's labels in push order. */
  lemma LabelStepsAreLabelled(b: Bucket, p: Property, sales: seq<Sale>)
    requires Contributes(p)
    ensures LabelSteps(b, p, sales) == Labelled(b, p, sales)
  {
    var m := b.month;
    var s := FirstSale(sales, p.name);
    var inc, dec, sl := Increase(p.name), Decrease(p.name), SoldLabel(p.name);
    var h0, h1, h2, h3 := m == p.contract, m == p.loanEnd + 1, m == DepreciationEnd(p) + 1, s.Some? && m == s.value;
    var b3 := AddLabelsIf(AddLabelsIf(AddLabelsIf(b, h0, [inc], [inc]), h1, [dec], []), h2, [], [dec]);
    ghost var ps: seq<string>, qs: seq<string>;
    if h0 {
      // the contract month is neither month after an end
      assert !h1 && !h2;
      ps, qs := [inc], [inc];
    } else if h1 && h2 {
      AddLabelsTwice(b, [dec], [], [], [dec]);
      assert [dec] + [] == [dec] && [] + [dec] == [dec];
      ps, qs := [dec], [dec];
    } else if h1 {
      ps, qs := [dec], [];
    } else if h2 {
      ps, qs := [], [dec];
    } else {
      ps, qs := [], [];
    }
    assert b3 == if !(h0 || h1 || h2) then b else AddLabels(b, ps, qs);
    if h3 {
      if h0 || h1 || h2 {
        AddLabelsTwice(b, ps, qs, [sl], [sl]);
      } else {
        assert ps + [sl] == [sl] && qs + [sl] == [sl];
      }
      ps, qs := ps + [sl], qs + [sl];
    }
    assert LabelSteps(b, p, sales) == if !(h0 || h1 || h2 || h3) then b else AddLabels(b, ps, qs);
    assert ps == PrincipalEventsAt(p, sales, m);
    assert qs == DepreciationEventsAt(p, sales, m);
  }

  /** One `ensureMonthlyMap(x)` followed by its pushes, seen from every month. */
  lemma StageEffect(before: map<Month, Bucket>, after: map<Month, Bucket>, x: Month, pl: seq<string>, dl: seq<string>)
    requires forall m :: m in after <==> m in before || m == x
    requires after[x] == AddLabels(Existing(before, x), pl, dl)
    requires forall m | m in before && m != x :: after[m] == before[m]
    ensures forall k :: k in after <==> k in before || k == x
    ensures forall k :: Existing(after, k) == AddLabelsIf(Existing(before, k), k == x, pl, dl)
  {
  }

  /** `ensureMonthlyMap(x)` and a push onto each list. */
  lemma BothPushed(before: map<Month, Bucket>, x: Month, pl: string, dl: string)
    ensures var after := PushDepreciationEvent(PushPrincipalEvent(EnsureBucket(before, x), x, pl), x, dl);
      && (forall k :: k in after <==> k in before || k == x)
      && (forall k :: Existing(after, k) == AddLabelsIf(Existing(before, k), k == x, [pl], [dl]))
  {
    var after := PushDepreciationEvent(PushPrincipalEvent(EnsureBucket(before, x), x, pl), x, dl);
    StageEffect(before, after, x, [pl], [dl]);
  }

  /** `ensureMonthlyMap(x)` and a push onto `元金イベント` only. */
  lemma PrincipalPushed(before: map<Month, Bucket>, x: Month, pl: string)
    ensures var after := PushPrincipalEvent(EnsureBucket(before, x), x, pl);
      && (forall k :: k in after <==> k in before || k == x)
      && (forall k :: Existing(after, k) == AddLabelsIf(Existing(before, k), k == x, [pl], []))
  {
    var after := PushPrincipalEvent(EnsureBucket(before, x), x, pl);
    assert OrEmpty(Existing(before, x).depreciationEvents) + [] == OrEmpty(Existing(before, x).depreciationEvents);
    StageEffect(before, after, x, [pl], []);
  }

  /** `ensureMonthlyMap(x)` and a push onto `減価償却イベント` only. */
  lemma DepreciationPushed(before: map<Month, Bucket>, x: Month, dl: string)
    ensures var after := PushDepreciationEvent(EnsureBucket(before, x), x, dl);
      && (forall k :: k in after <==> k in before || k == x)
      && (forall k :: Existing(after, k) == AddLabelsIf(Existing(before, k), k == x, [], [dl]))
  {
    var after := PushDepreciationEvent(EnsureBucket(before, x), x, dl);
    assert OrEmpty(Existing(before, x).principalEvents) + [] == OrEmpty(Existing(before, x).principalEvents);
    StageEffect(before, after, x, [], [dl]);
  }

  /** The tail of the callback: the increase labels at the contract month, the
      decrease labels after each natural end, and the sale labels. */
  method AttachLabels(monthly: map<Month, Bucket>, item: Property, soldBuildings: seq<Sale>, soldMonth: Option<Month>)
    returns (r: map<Month, Bucket>)
    requires WellKeyed(monthly)
    requires Contributes(item) && soldMonth == FirstSale(soldBuildings, item.name)
    ensures forall k :: k in r <==> k in monthly || Touches(item, soldBuildings, k)
    ensures forall k | k in r :: r[k] == Labelled(Existing(monthly, k), item, soldBuildings)
  {
    var startMonth := item.contract;
    var endLoanMonth := item.loanEnd + 1;
    var endDepreciationMonth := item.contract + 12 * CoerceOrZero(item.usefulLife);
    var increase, decrease := Increase(item.name), Decrease(item.name);

    BothPushed(monthly, startMonth, increase, increase);
    r := EnsureBucket(monthly, startMonth);
    r := PushPrincipalEvent(r, startMonth, increase);
    r := PushDepreciationEvent(r, startMonth, increase);
    ghost var r1 := r;

    PrincipalPushed(r, endLoanMonth, decrease);
    r := EnsureBucket(r, endLoanMonth);
    r := PushPrincipalEvent(r, endLoanMonth, decrease);
    ghost var r2 := r;

    DepreciationPushed(r, endDepreciationMonth, decrease);
    r := EnsureBucket(r, endDepreciationMonth);
    r := PushDepreciationEvent(r, endDepreciationMonth, decrease);
    ghost var r3 := r;

    var sold := SoldLabel(item.name);
    if soldMonth.Some? {
      var endMonth := soldMonth.value;
      BothPushed(r, endMonth, sold, sold);
      r := EnsureBucket(r, endMonth);
      r := PushPrincipalEvent(r, endMonth, sold);
      r := PushDepreciationEvent(r, endMonth, sold);
    }
    StagesAreLabelled(monthly, r1, r2, r3, r, item, soldBuildings);
  }

  /** The four label stages of `AttachLabels` together attach the asset's labels. */
  lemma StagesAreLabelled(monthly: map<Month, Bucket>, r1: map<Month, Bucket>, r2: map<Month, Bucket>,
                          r3: map<Month, Bucket>, r: map<Month, Bucket>, p: Property, sales: seq<Sale>)
    requires WellKeyed(monthly) && Contributes(p)
    requires forall k ::
      Existing(r1, k) == AddLabelsIf(Existing(monthly, k), k == p.contract, [Increase(p.name)], [Increase(p.name)])
    requires forall k :: Existing(r2, k) == AddLabelsIf(Existing(r1, k), k == p.loanEnd + 1, [Decrease(p.name)], [])
    requires forall k :: Existing(r3, k) == AddLabelsIf(Existing(r2, k), k == DepreciationEnd(p) + 1, [], [Decrease(p.name)])
    requires forall k :: Existing(r, k) == AddLabelsIf(Existing(r3, k),
      FirstSale(sales, p.name).Some? && k == FirstSale(sales, p.name).value, [SoldLabel(p.name)], [SoldLabel(p.name)])
    requires forall k :: k in r1 <==> k in monthly || k == p.contract
    requires forall k :: k in r2 <==> k in r1 || k == p.loanEnd + 1
    requires forall k :: k in r3 <==> k in r2 || k == DepreciationEnd(p) + 1
    requires forall k :: k in r <==> k in r3 || FirstSale(sales, p.name) == Some(k)
    ensures forall k :: k in r <==> k in monthly || Touches(p, sales, k)
    ensures forall k | k in r :: r[k] == Labelled(Existing(monthly, k), p, sales)
  {
    forall k | k in r
      ensures r[k] == Labelled(Existing(monthly, k), p, sales)
    {
      assert Existing(monthly, k).month == k;
      assert r[k] == Existing(r, k) == LabelSteps(Existing(monthly, k), p, sales);
      LabelStepsAreLabelled(Existing(monthly, k), p, sales);
    }
  }

  /** `bucket.元金合計 += amount`. */
  function AddPrincipalAmount(b: Bucket, amount: int): Bucket
  {
    b.(principalTotal := b.principalTotal + amount)
  }

  /** `bucket.減価償却合計 += amount`. */
  function AddDepreciationAmount(b: Bucket, amount: int): Bucket
  {
    b.(depreciationTotal := b.depreciationTotal + amount)
  }

  /** The principal loop of the callback: from the contract month through the
      loan end, stopping at the first month on or after the sale. */
  method AddPrincipal(monthly: map<Month, Bucket>, item: Property, soldBuildings: seq<Sale>, soldMonth: Option<Month>)
    returns (r: map<Month, Bucket>)
    requires WellKeyed(monthly)
    requires Contributes(item) && soldMonth == FirstSale(soldBuildings, item.name)
    ensures WellKeyed(r)
    ensures forall k :: k in r <==> k in monthly || InLoan(item, soldBuildings, k)
    ensures forall k :: Existing(r, k) == AddPrincipalAmount(Existing(monthly, k), PrincipalAt(item, soldBuildings, k))
  {
    var contractStart := item.contract;
    var loanMonths := item.loanEnd - contractStart + 1;
    var monthlyPrincipal := CoerceOrZero(item.principal);
    r := monthly;
    var cur := contractStart;
    for i := 0 to loanMonths
      invariant cur == contractStart + i
      invariant forall k :: k in r <==> k in monthly || contractStart <= k < cur
      invariant forall k | k in r ::
        r[k] == AddPrincipalAmount(Existing(monthly, k), if contractStart <= k < cur then monthlyPrincipal else 0)
      invariant forall k :: contractStart <= k < cur ==> InLoan(item, soldBuildings, k)
    {
      if soldMonth.Some? && cur >= soldMonth.value {
        break;
      }
      r := r[cur := AddPrincipalAmount(Existing(r, cur), monthlyPrincipal)];
      cur := cur + 1;
    }
    assert forall k :: InLoan(item, soldBuildings, k) <==> contractStart <= k < cur;
    forall k ensures Existing(r, k) == AddPrincipalAmount(Existing(monthly, k), PrincipalAt(item, soldBuildings, k))
    {
      if k !in r {
        assert k !in monthly;
      }
    }
  }

  /** The depreciation loop of the callback: `years * 12` months from the
      contract month, stopping at the first month on or after the sale. */
  method AddDepreciation(monthly: map<Month, Bucket>, item: Property, soldBuildings: seq<Sale>, soldMonth: Option<Month>)
    returns (r: map<Month, Bucket>)
    requires WellKeyed(monthly)
    requires Contributes(item) && soldMonth == FirstSale(soldBuildings, item.name)
    ensures WellKeyed(r)
    ensures forall k :: k in r <==> k in monthly || InDepreciation(item, soldBuildings, k)
    ensures forall k :: Existing(r, k) == AddDepreciationAmount(Existing(monthly, k), DepreciationAt(item, soldBuildings, k))
  {
    var contractStart := item.contract;
    var depreciationMonths := 12 * CoerceOrZero(item.usefulLife);
    var monthlyDepreciation := CoerceOrZero(item.depreciation);
    r := monthly;
    var cur := contractStart;
    for i := 0 to depreciationMonths
      invariant cur == contractStart + i
      invariant forall k :: k in r <==> k in monthly || contractStart <= k < cur
      invariant forall k | k in r ::
        r[k] == AddDepreciationAmount(Existing(monthly, k), if contractStart <= k < cur then monthlyDepreciation else 0)
      invariant forall k :: contractStart <= k < cur ==> InDepreciation(item, soldBuildings, k)
    {
      if soldMonth.Some? && cur >= soldMonth.value {
        break;
      }
      r := r[cur := AddDepreciationAmount(Existing(r, cur), monthlyDepreciation)];
      cur := cur + 1;
    }
    assert forall k :: InDepreciation(item, soldBuildings, k) <==> contractStart <= k < cur;
    forall k ensures Existing(r, k) == AddDepreciationAmount(Existing(monthly, k), DepreciationAt(item, soldBuildings, k))
    {
      if k !in r {
        assert k !in monthly;
      }
    }
  }

  /** The callback of `data.forEach` for one asset `item`: the two early
      returns, the sale lookup, the amount loops, then the event labels. */
  method AccumulateAsset(monthly: map<Month, Bucket>, item: Property, soldBuildings: seq<Sale>,
                         ghost done: seq<Property>)
    returns (r: map<Month, Bucket>)
    requires monthly == Expected(done, soldBuildings)
    ensures r == Expected(done + [item], soldBuildings)
  {
    var contractStart := item.contract;
    var loanEnd := item.loanEnd;
    var years := CoerceOrZero(item.usefulLife);
    var depreciationEnd := contractStart + 12 * years - 1;
    var depreciationMonths := depreciationEnd - contractStart + 1;
    var loanMonths := loanEnd - contractStart + 1;

    if loanMonths <= 0 || depreciationMonths <= 0 {
      SkippedAssetHasNoEffect(done, item, soldBuildings);
      return monthly;
    }

    var monthlyDepreciation := CoerceOrZero(item.depreciation);
    var monthlyPrincipal := CoerceOrZero(item.principal);

    if monthlyDepreciation == 0 && monthlyPrincipal == 0 {
      SkippedAssetHasNoEffect(done, item, soldBuildings);
      return monthly;
    }

    var soldMonth := FirstSale(soldBuildings, item.name);
    var paid := AddPrincipal(monthly, item, soldBuildings, soldMonth);
    var summed := AddDepreciation(paid, item, soldBuildings, soldMonth);
    r := AttachLabels(summed, item, soldBuildings, soldMonth);

    StagesComposed(monthly, paid, summed, r, item, soldBuildings);
    AssetStagesMeetExpected(done, item, soldBuildings, monthly, r);
  }

  /** A dictionary holding, for the asset's schedule months, exactly the
      buckets `WithAsset` gives is the dictionary with one more asset. */
  lemma AssetStagesMeetExpected(done: seq<Property>, item: Property, sales: seq<Sale>,
                                monthly: map<Month, Bucket>, r: map<Month, Bucket>)
    requires monthly == Expected(done, sales)
    requires forall k :: k in r <==> k in monthly || k in ScheduleMonths(item, sales)
    requires forall k | k in r :: r[k] == WithAsset(Existing(monthly, k), item, sales)
    ensures r == Expected(done + [item], sales)
  {
    ExpectedSnoc(done, item, sales);
    var e1 := Expected(done + [item], sales);
    assert forall k :: k in r <==> k in e1;
    assert forall k | k in r :: r[k] == e1[k];
  }

  /** Per month, the three stages together are `WithAsset`. */
  lemma StagesComposed(monthly: map<Month, Bucket>, paid: map<Month, Bucket>,
                       summed: map<Month, Bucket>, r: map<Month, Bucket>, item: Property, sales: seq<Sale>)
    requires WellKeyed(monthly)
    requires forall k :: k in paid <==> k in monthly || InLoan(item, sales, k)
    requires forall k :: Existing(paid, k) == AddPrincipalAmount(Existing(monthly, k), PrincipalAt(item, sales, k))
    requires forall k :: k in summed <==> k in paid || InDepreciation(item, sales, k)
    requires forall k :: Existing(summed, k) == AddDepreciationAmount(Existing(paid, k), DepreciationAt(item, sales, k))
    requires forall k :: k in r <==> k in summed || Touches(item, sales, k)
    requires forall k | k in r :: r[k] == Labelled(Existing(summed, k), item, sales)
    ensures forall k :: k in r <==> k in monthly || k in ScheduleMonths(item, sales)
    ensures forall k | k in r :: r[k] == WithAsset(Existing(monthly, k), item, sales)
  {
    ScheduleMonthsMembers(item, sales);
    forall k | k in r ensures r[k] == WithAsset(Existing(monthly, k), item, sales) {
      assert Existing(summed, k).month == Existing(monthly, k).month == k;
    }
  }

  /** The whole aggregation: every asset, in order, folded into one dictionary. */
  method Aggregate(data: seq<Property>, soldBuildings: seq<Sale>) returns (monthlyMap: map<Month, Bucket>)
    ensures monthlyMap == Expected(data, soldBuildings)
  {
    monthlyMap := map[];
    for i := 0 to |data|
      invariant monthlyMap == Expected(data[..i], soldBuildings)
    {
      assert data[..i + 1] == data[..i] + [data[i]];
      monthlyMap := AccumulateAsset(monthlyMap, data[i], soldBuildings, data[..i]);
    }
    assert data[..|data|] == data;
  }
}
