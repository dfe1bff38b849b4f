/** Record shapes of the dashboard's five tables, with dates already parsed.
    A missing CSV cell (NaN in pandas) is `None`. */
module Tables {

  datatype Option<+T> = None | Some(value: T) {
    /** `fillna(default)` applied to one cell. */
    function GetOr(default: T): T {
      match this
      case Some(v) => v
      case None => default
    }
  }

  /** A parsed `datetime`: the calendar day (a day number) and the second within that day. */
  datatype Timestamp = Timestamp(day: int, secondOfDay: nat)

  /** `.dt.date`: the calendar date of a timestamp, the time of day dropped. */
  function CalendarDate(t: Timestamp): int {
    t.day
  }

  /** The sidebar entry that means "no filter" for category and payment method. */
  const ALL: string := "(Tous)"

  /** The product master table; `productId` is its key. */
  datatype Product = Product(
    productId: int,
    name: Option<string>,
    category: Option<string>,
    unitPrice: Option<real>,
    costPrice: Option<real>,
    taxRate: Option<real>,
    initialStock: Option<int>,
    minStock: Option<int>)

  /** One inventory movement; only the kinds "in" and "out" are counted. */
  datatype Movement = Movement(productId: int, date: Timestamp, kind: string, quantity: int)

  /** One sale line. The fields from `unitPrice` on hold the sales table's own copy of a
      product column: `None` when the cell is missing or the table has no such column. */
  datatype SaleLine = SaleLine(
    saleId: string,
    productId: int,
    date: Timestamp,
    quantity: Option<int>,
    discount: Option<real>,
    paymentMethod: string,
    unitPrice: Option<real>,
    costPrice: Option<real>,
    taxRate: Option<real>,
    name: Option<string>,
    category: Option<string>)

  /** Which product columns the sales table itself carries. A column carried by both tables
      keeps the sale side's values after the merge; the product's copy is renamed `_prod`. */
  datatype SaleColumns = SaleColumns(costPrice: bool, taxRate: bool, name: bool, category: bool)

  datatype Expense = Expense(date: Timestamp, category: string, amount: real)

  /** The sidebar selection: the date window [d1, d2] and the category and payment filters. */
  datatype Filters = Filters(d1: int, d2: int, category: string, payment: string)

  /** The date test of the sales and expense filters: calendar date in [d1, d2], both ends included. */
  predicate InWindow(t: Timestamp, d1: int, d2: int) {
    d1 <= CalendarDate(t) <= d2
  }
}
