# Property timeline model

This project models the core of a small desktop tool for real-estate
portfolios. For each month, the tool charts the loan principal a portfolio
repays and the depreciation it books. Each building has these fields:

- a contract month
- a loan-end month
- a monthly principal
- a monthly depreciation
- a statutory useful life in years

The user can also run "what if" simulations. A simulation log holds two kinds
of event:

- add a virtual building
- sell a building from a given month on

The model covers these parts of the tool:

- **Simulation log** (`simulation.dfy`):
  - splitting the log into virtual buildings and sales
  - the portfolio the chart sees (original buildings, then virtual ones)
  - appending, editing and deleting log entries
- **Aggregation** (`aggregation.dfy`, over the schedule in `schedule.dfy`). This
  is the monthly aggregation loop. For each building, it adds the monthly
  principal over the loan interval and the monthly depreciation over the
  useful life, and stops both at the sale month. It also records these event
  labels:
  - `：増加` in the contract month
  - `：減少` in the month after the loan ends, and in the month after depreciation ends
  - `：売却` in the sale month

  Buildings with an empty interval are skipped. So are buildings whose two
  monthly amounts both read as zero. The loop is imperative here as in the
  program: `Aggregation.Aggregate` runs over the buildings and calls
  `Aggregation.AccumulateAsset` for each. That method calls three others:
  `Aggregation.AddPrincipal` and `Aggregation.AddDepreciation`, which hold the
  two bounded `for` loops with their early `break`, and
  `Aggregation.AttachLabels`, which makes the label pushes. `Aggregate` and
  `AccumulateAsset` are proved to compute the declarative month map
  `Aggregation.Expected`.
- **Chart** (`chart.dfy`):
  - the chart rows in month order
  - the highlighted months where principal exceeds depreciation by more than the threshold
  - the default slider bounds
  - the range filter
- **Drill-down** (`drill_down.dfy`): clicking a month hands on the buildings
  that are already contracted and not yet sold in that month.
- **Building list** (`building_list.dfy`): the buildings active in a target
  month, each with this month's principal and depreciation.

Months are integers (`year * 12 + month - 1`). A field that the program reads
with `parseInt(..) || 0` is `Property.Amount`: either a whole number or
something that does not parse. `Property.CoerceOrZero` reads it.

### Chart and building list

`BuildingList.ListMatchesChart` proves that the list agrees with the chart for
buildings whose loan interval and depreciation interval are both non-empty.
For the month the user clicked, the principal and depreciation the list shows
sum to that month's chart totals. The two pages test "active" differently:

- The chart skips a building whose useful life is zero.
- The list still shows that building's loan.

`BuildingList.ListShowsSkippedLoan` exhibits a building where the two disagree.
The program's own comments and the chart's skip rule do not say which page is
meant to win, so this is recorded as a property of the model, not as a defect.

## Model

| member | source | states |
|---|---|---|
| Property.MonthOf | src/pages/GraphPage.tsx:139 | the month index of a `YYYY-MM` string recovers its year and its month |
| Property.FirstSaleIsFirst | src/pages/GraphPage.tsx:131-132 | the sale looked up for a building is absent exactly when no sale names it, and is otherwise the date of the first sale naming it |
| Schedule.ScheduleMonthsMembers | src/pages/GraphPage.tsx:134-199 | a month gets a bucket from a building exactly when it falls in the paid part of the loan, in the booked part of the depreciation, or carries one of its labels |
| Schedule.NoEventsWithoutTouch | src/pages/GraphPage.tsx:183-199 | a building adds no label to a month that is none of its four label months |
| Schedule.LabelsPlacement | src/pages/GraphPage.tsx:182-199 | a counted building puts `：増加` in its contract month, `：減少` in the month after the loan ends and in the month after depreciation ends, and `：売却` in its sale month |
| Schedule.SaleTruncation | src/pages/GraphPage.tsx:134-158 | from the sale month on, and for any building sold in or before its contract month, the building contributes neither principal nor depreciation |
| Schedule.PrincipalPrefix | src/pages/GraphPage.tsx:135-145 | the first n loan months add the monthly principal once per month before the stop month |
| Schedule.DepreciationPrefix | src/pages/GraphPage.tsx:148-158 | the first n depreciation months add the monthly depreciation once per month before the stop month |
| Schedule.PrincipalConservation | src/pages/GraphPage.tsx:121-145 | over the whole loan a building contributes the monthly principal times the months paid before the sale, which is every loan month when it is never sold |
| Schedule.DepreciationConservation | src/pages/GraphPage.tsx:117-158 | over the useful life a building contributes the monthly depreciation times the months booked before the sale, which is 12 times its years when it is never sold |
| Schedule.ExampleUnsold | src/pages/GraphPage.tsx:114-199 | a building contracted 2021-06, loan ending 2021-08, two years of life: principal in 2021-06..08, depreciation in 2021-06..2023-05, increase labels in 2021-06, decrease labels in 2021-09 and 2023-06 |
| Schedule.ExampleSold | src/pages/GraphPage.tsx:131-199 | the same building sold in 2021-07 contributes only in 2021-06 and gets the sold labels in 2021-07 |
| Aggregation.Expected | src/pages/GraphPage.tsx:112-201 | every bucket of the month map carries its own month |
| Aggregation.OutsideIsEmpty | src/pages/GraphPage.tsx:112-201 | a month no building schedules has zero totals and no labels |
| Aggregation.UntouchedHasNoLabels | src/pages/GraphPage.tsx:182-199 | a month no building touches has empty label lists |
| Aggregation.SnocAt | src/pages/GraphPage.tsx:114 | one more building adds its own amounts, labels and months to the pointwise sums |
| Aggregation.SnocBucket | src/pages/GraphPage.tsx:114-201 | after one more building, each month's bucket is the old bucket with that building's contribution |
| Aggregation.SnocLabels | src/pages/GraphPage.tsx:182-199 | after one more building, each month's labels are the old labels followed by that building's labels |
| Aggregation.ExpectedSnoc | src/pages/GraphPage.tsx:114-201 | processing one more building adds exactly its schedule months to the map and updates each bucket with its contribution |
| Aggregation.SkippedAssetHasNoEffect | src/pages/GraphPage.tsx:117-128 | a building with an empty interval or with both amounts reading zero leaves the map unchanged |
| Aggregation.EnsureBucket | src/pages/GraphPage.tsx:165-179 | the month gets a bucket if missing and its two label lists become defined, keeping any labels already there; all other months are unchanged |
| Aggregation.PushPrincipalEvent | src/pages/GraphPage.tsx:183-199 | appends one label to the month's principal labels and changes nothing else |
| Aggregation.PushDepreciationEvent | src/pages/GraphPage.tsx:183-199 | appends one label to the month's depreciation labels and changes nothing else |
| Aggregation.AddLabelsTwice | src/pages/GraphPage.tsx:183-199 | two successive label appends equal one append of the concatenated labels |
| Aggregation.LabelStepsAreLabelled | src/pages/GraphPage.tsx:183-199 | the four label steps in program order give each month exactly the building's labels for that month |
| Aggregation.StageEffect | src/pages/GraphPage.tsx:165-179 | an ensure-then-append step changes only the target month and adds the month to the map |
| Aggregation.BothPushed | src/pages/GraphPage.tsx:183-199 | ensuring a month and pushing a principal and a depreciation label labels only that month |
| Aggregation.PrincipalPushed | src/pages/GraphPage.tsx:188-189 | ensuring a month and pushing a principal label labels only that month |
| Aggregation.DepreciationPushed | src/pages/GraphPage.tsx:191-192 | ensuring a month and pushing a depreciation label labels only that month |
| Aggregation.AttachLabels | src/pages/GraphPage.tsx:161-199 | after the label steps, the map holds the old months plus the building's label months, and each bucket is the old one with exactly that building's labels |
| Aggregation.StagesAreLabelled | src/pages/GraphPage.tsx:182-199 | the four label stages together add exactly the label months and give each month the building's labels |
| Aggregation.AddPrincipal | src/pages/GraphPage.tsx:134-146 | the loan loop with its early break adds the monthly principal to exactly the months paid before the sale, creating missing buckets with zero totals |
| Aggregation.AddDepreciation | src/pages/GraphPage.tsx:147-158 | the depreciation loop with its early break adds the monthly depreciation to exactly the months booked before the sale |
| Aggregation.AccumulateAsset | src/pages/GraphPage.tsx:115-200 | processing one building turns the map for the buildings so far into the map for them plus this building, including the two skips |
| Aggregation.StagesComposed | src/pages/GraphPage.tsx:134-199 | principal, then depreciation, then labels give every month the building's whole contribution, and add exactly its schedule months |
| Aggregation.AssetStagesMeetExpected | src/pages/GraphPage.tsx:114-201 | a map updated by one building's whole contribution is the declarative map for the longer list |
| Aggregation.Aggregate | src/pages/GraphPage.tsx:112-201 | the month map equals the declarative map: per month, the sums of the buildings' amounts and the concatenation of their labels in portfolio order |
| Chart.EarliestExists | src/pages/GraphPage.tsx:203-205 | a non-empty set of months has a least element |
| Chart.Earliest | src/pages/GraphPage.tsx:203-205 | the earliest month is in the set and precedes every other |
| Chart.RemoveKey | src/pages/GraphPage.tsx:203 | taking one month out of the map leaves one fewer bucket |
| Chart.ChartStep | src/pages/GraphPage.tsx:203-205 | the earliest bucket followed by the sorted rest is a sorted listing of the whole map |
| Chart.ChartData | src/pages/GraphPage.tsx:203-205 | the chart rows are the map's buckets, each exactly once, in strictly ascending month order |
| Chart.HighlightedRanges | src/pages/GraphPage.tsx:207-218 | at most one range per chart row, and each spans one month to the next |
| Chart.HighlightMembers | src/pages/GraphPage.tsx:207-218 | a month is highlighted exactly when a chart row for it has principal minus depreciation above threshold times 10000 |
| Chart.HighlightConcat | src/pages/GraphPage.tsx:207-218 | highlighting works row by row, so a concatenation is highlighted part by part |
| Chart.HighlightsAscending | src/pages/GraphPage.tsx:207-218 | on a sorted chart the ranges come out in increasing order and each starts at a charted month |
| Chart.FirstMonth | src/pages/GraphPage.tsx:230 | the minimum is a charted month and no charted month precedes it |
| Chart.LastMonth | src/pages/GraphPage.tsx:231 | the maximum is a charted month and no charted month follows it |
| Chart.DefaultBounds | src/pages/GraphPage.tsx:227-240 | an empty chart gets 2000-01 to 2100-01; otherwise the bounds are the earliest and the latest charted months |
| Chart.AscendingBounds | src/pages/GraphPage.tsx:227-240 | on a sorted chart the default bounds are its first and last rows' months |
| Chart.RangeFilter | src/pages/GraphPage.tsx:245-250 | the filtered chart is no longer than the chart |
| Chart.RangeFilterMembers | src/pages/GraphPage.tsx:245-250 | a row is shown exactly when it is in the chart and its month lies between the bounds, inclusive |
| Chart.RangeFilterConcat | src/pages/GraphPage.tsx:245-250 | filtering keeps row order |
| Chart.RangeFilterKeepsInside | src/pages/GraphPage.tsx:245-250 | a chart lying inside the bounds is shown whole |
| Chart.RangeFilterIdempotent | src/pages/GraphPage.tsx:245-250 | filtering twice with the same bounds is filtering once |
| Chart.DefaultBoundsShowAll | src/pages/GraphPage.tsx:227-250 | with the default bounds the whole chart is shown |
| Chart.RangeFilterAscending | src/pages/GraphPage.tsx:245-250 | the filtered chart of a sorted chart is sorted |
| SimulationLog.Split | src/pages/GraphPage.tsx:61-76 | the loop collects the added buildings and the sales of the log, each in log order |
| SimulationLog.SplitPartitions | src/pages/GraphPage.tsx:68-74 | every log entry goes to exactly one of the two lists |
| SimulationLog.SplitConcat | src/pages/GraphPage.tsx:68-74 | splitting a concatenated log splits each part in turn |
| SimulationLog.VirtualMembers | src/pages/GraphPage.tsx:69-70 | a building is virtual exactly when some add entry carries it |
| SimulationLog.SoldMembers | src/pages/GraphPage.tsx:71-72 | a sale is recorded exactly when some sell entry carries its building and date |
| SimulationLog.Portfolio | src/pages/GraphPage.tsx:78-81 | the chart's data is the original buildings followed by the virtual ones |
| SimulationLog.Edit | src/pages/GraphPage.tsx:403-405 | editing keeps the log's length and ids; only the add entries with the id change, and each becomes that add with the form's building |
| SimulationLog.AppendsLast | src/pages/GraphPage.tsx:347-413 | a new building or a complete sale is appended as the last entry under a fresh id; a sale form missing its name or its date changes nothing |
| SimulationLog.Delete | src/pages/GraphPage.tsx:570 | deleting never lengthens the log |
| SimulationLog.DeleteConcat | src/pages/GraphPage.tsx:570 | deleting works entry by entry, so the entries that remain keep their log order |
| SimulationLog.DeleteMembers | src/pages/GraphPage.tsx:570 | after deleting an id the log holds exactly the entries with other ids |
| SimulationLog.DeleteAbsent | src/pages/GraphPage.tsx:570 | deleting an id not in the log changes nothing |
| SimulationLog.DeleteUndoesAdd | src/pages/GraphPage.tsx:570 | deleting a just-added building restores the log |
| SimulationLog.DeleteUndoesSell | src/pages/GraphPage.tsx:570 | deleting a just-recorded sale restores the log |
| SimulationLog.AddExtendsPortfolio | src/pages/GraphPage.tsx:408-413 | adding a building appends it to the portfolio and leaves the sales alone |
| SimulationLog.SellExtendsSales | src/pages/GraphPage.tsx:349-355 | recording a sale appends it to the sales and leaves the portfolio alone |
| SimulationLog.AppendKeepsUnique | src/pages/GraphPage.tsx:349-413 | appending an entry under a fresh id keeps ids unique |
| SimulationLog.EditKeepsUnique | src/pages/GraphPage.tsx:403-405 | editing keeps ids unique |
| SimulationLog.IdsSnoc | src/pages/GraphPage.tsx:570 | the ids of a log with one more entry are the old ids plus that entry's id |
| SimulationLog.DeleteKeepsUnique | src/pages/GraphPage.tsx:570 | deleting keeps ids unique and removes exactly the deleted id |
| SimulationLog.EditKeepsSales | src/pages/GraphPage.tsx:403-405 | editing a building never changes the recorded sales |
| SimulationLog.EditAbsent | src/pages/GraphPage.tsx:403-405 | editing an id that names no add entry changes nothing |
| SimulationLog.VirtualAround | src/pages/GraphPage.tsx:68-74 | the virtual buildings of a log are those before an entry, that entry's building if it adds one, then those after |
| SimulationLog.EditAt | src/pages/GraphPage.tsx:403-405 | with unique ids, editing an add entry replaces that one entry and nothing else |
| SimulationLog.VirtualAt | src/pages/GraphPage.tsx:68-74 | the same split around a position of the log |
| SimulationLog.EditReplacesOne | src/pages/GraphPage.tsx:403-405 | editing a building replaces it in place in the virtual list, keeping every other building and the order |
| DrillDown.VisibleData | src/pages/GraphPage.tsx:486-502 | the handed-on list is no longer than the portfolio |
| DrillDown.VisibleMembers | src/pages/GraphPage.tsx:486-502 | a building is handed on exactly when it is in the portfolio, its contract month is not after the clicked month, and its first recorded sale is not in or before that month |
| DrillDown.VisibleConcat | src/pages/GraphPage.tsx:486-502 | the filter keeps portfolio order |
| DrillDown.ChartedIsVisible | src/pages/GraphPage.tsx:486-502 | every building that contributes principal or depreciation to the clicked month is handed on |
| DrillDown.HiddenOutsideHolding | src/pages/GraphPage.tsx:488-500 | a building is not handed on before its contract month, nor in or after its sale month |
| BuildingList.Listed | src/pages/BuildingList.tsx:20-42 | the list is no longer than the buildings handed on |
| BuildingList.ListedMembers | src/pages/BuildingList.tsx:20-42 | a row is listed exactly when its building was handed on and is in its loan or depreciation interval, with this month's principal (or 0 outside the loan) and depreciation (or 0 outside the useful life) |
| BuildingList.ListedConcat | src/pages/BuildingList.tsx:20-42 | listing keeps the buildings' order |
| BuildingList.NotListedBeforeContract | src/pages/BuildingList.tsx:26-32 | a building is not listed before its contract month |
| BuildingList.RowsSnoc | src/pages/BuildingList.tsx:36-40 | the totals of one more row add that row's amounts |
| BuildingList.ListedSnoc | src/pages/BuildingList.tsx:20-42 | listing one more building appends its row when it is active |
| BuildingList.VisibleSnoc | src/pages/GraphPage.tsx:486-502 | filtering one more building appends it when it is visible |
| BuildingList.RowAmounts | src/pages/BuildingList.tsx:22-40 | for a building with two non-empty intervals, its listed amounts are its chart amounts for the month, and a building not listed contributes nothing to the chart |
| BuildingList.ListStep | src/pages/BuildingList.tsx:20-42 | one more building adds its chart amounts to the list's totals |
| BuildingList.ListMatchesChart | src/pages/BuildingList.tsx:20-42 | for buildings whose two intervals are non-empty, the list's totals for the clicked month equal the chart's totals for that month |
| BuildingList.ListShowsSkippedLoan | src/pages/BuildingList.tsx:20-42 | a building with no useful life adds nothing to the chart, but its principal of 5 still shows in the list |

## Left out

- Date parsing and formatting (`dayjs`, `format("YYYY-MM")`, invalid date strings) are not modelled. Months are integers and dates are given as months. `startOf("month")` is taken as already applied.
- Number parsing is only partly modelled. A cell is either a whole number or text that does not parse, which is how `parseInt(..) || 0` sees it. Partially numeric strings and fractional values are not modelled. The building list reads the useful life with `Number(..)` rather than `parseInt`; on the values modelled, the two give the same result.
- The threshold and the amounts are integers, not floating-point numbers.
- The "no data" early return of the chart page (src/pages/GraphPage.tsx:103-110) is rendering only, and is not modelled.
- `Chart.RangeFilter` takes arbitrary bounds. React state is not modelled: the slider's initial state from `useState`, and the later slider changes, are just its parameters.
- Chart.DefaultBoundsShowAll holds only for the first render. The page computes the default bounds only as the initial `useState` value (src/pages/GraphPage.tsx:242-243). Suppose a later virtual add extends the timeline: its new months stay outside the range filter until the user moves the slider. The lemma does not promise that the page shows the whole chart after every render.
- Chart sorting is defined by its result (ascending months, each bucket once). The comparator, `unix()` and the order of `Object.values` are not modelled, because the sort alone fixes the row order.
- `crypto.randomUUID` is not modelled. A new id is a parameter, and appending requires that it be fresh.
- Storage is not modelled: `localStorage`, the Electron IPC that opens the list window, and the URL parameter the list reads.
- Rendering is not modelled: x-axis ticks, tooltips, modals, forms and the building-list table.
- SimulationLog.Edit: a sell entry whose id matches is kept unchanged. The program spreads `data` onto it, but the entry stays a sale and nothing reads that field. Only add entries can be edited.
- SimulationLog.SellBuilding: an empty date field in the sell form is an absent date (`None`), on which the form records nothing.
- SimulationLog.SaveBuilding and SimulationLog.SellBuilding carry no contract of their own. AppendsLast, AddExtendsPortfolio, SellExtendsSales and the DeleteUndoes lemmas state what they do.
- The component state hooks (`useMemo`, `useState`, `setSimulations`) are not modelled. Each update is a function from the old log to the new one.
