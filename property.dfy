/** The imported asset record (src/types/property.ts) and the month encoding
    every other module works in. */
module Property {

  datatype Option<+T> = None | Some(value: T)

  /** A calendar month, `year * 12 + (month - 1)`. Dates enter the core already
      truncated to their month (`dayjs(..).startOf("month")`), so a date is a
      Month and a "YYYY-MM" key is the same integer. */
  type Month = int

  function MonthOf(year: int, month: int): (m: Month)
    requires 1 <= month <= 12
    ensures m / 12 == year && m % 12 + 1 == month
  {
    year * 12 + (month - 1)
  }

  /** A spreadsheet amount cell as `parseInt(.., 10)` reads it: an integer, or NaN. */
  datatype Amount = Whole(n: int) | NotANumber

  /** `parseInt(x.toString(), 10) || 0`: NaN (and 0) become 0. */
  function CoerceOrZero(a: Amount): int
  {
    match a
    case Whole(n) => n
    case NotANumber => 0
  }

  /** One real-estate asset: ビル名, 契約日, 減価償却 (monthly), 法定耐用年数 (years),
      元金 (monthly), ローンの期限, 元金の支払いタイプ. */
  datatype Property = Property(
    name: string,
    contract: Month,
    depreciation: Amount,
    usefulLife: Amount,
    principal: Amount,
    loanEnd: Month,
    paymentType: string)

  /** A virtual sale: the building's name and the month of the sale date. */
  datatype Sale = Sale(building: string, date: Month)

  /** `sales.find((s) => s.ビル名 === name)`, reduced to the sale's month. */
  function FirstSale(sales: seq<Sale>, name: string): Option<Month>
  {
    if sales == [] then None
    else if sales[0].building == name then Some(sales[0].date)
    else FirstSale(sales[1..], name)
  }

  /** `find` returns nothing exactly when no sale names the building, and
      otherwise the date of the earliest sale that does. */
  lemma {:induction false} FirstSaleIsFirst(sales: seq<Sale>, name: string)
    ensures FirstSale(sales, name).None? <==> forall i | 0 <= i < |sales| :: sales[i].building != name
    ensures FirstSale(sales, name).Some? ==>
      exists i | 0 <= i < |sales| ::
        sales[i].building == name && sales[i].date == FirstSale(sales, name).value &&
        forall j | 0 <= j < i :: sales[j].building != name
  {
    if sales != [] && sales[0].building != name {
      FirstSaleIsFirst(sales[1..], name);
      assert forall i | 1 <= i < |sales| :: sales[i] == sales[1..][i - 1];
      var r := FirstSale(sales[1..], name);
      if r.Some? {
        var i :| 0 <= i < |sales[1..]| && sales[1..][i].building == name && sales[1..][i].date == r.value &&
          forall j | 0 <= j < i :: sales[1..][j].building != name;
        assert sales[i + 1].building == name;
      }
    }
  }
}
