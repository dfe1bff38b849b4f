/** The aggregation layer: KPIs, the day series, top products, the payment split, the
    expense roll-ups, the estimated profit and the low-stock table, assembled into one report. */
module Reporting {
  import opened Tables
  import opened Grouping
  import opened Sales
  import opened Stock

  /** Rows kept by the top-products chart. */
  const TOP_N: nat := 10

  /** `sales_f["line_price"].sum()`: 0 for no lines, and never negative when no line is. */
  function Revenue(lines: seq<EnrichedLine>): (rev: real)
    ensures lines == [] ==> rev == 0.0
    ensures (forall l :: l in lines ==> l.linePrice >= 0.0) ==> rev >= 0.0
  {
    if lines == [] then 0.0
    else
      assert forall l :: l in lines[1..] ==> l in lines;
      lines[0].linePrice + Revenue(lines[1..])
  }

  /** `sales_f["cogs"].sum()`: 0 for no lines, and never negative when no line is. */
  function CogsTotal(lines: seq<EnrichedLine>): (cogs: real)
    ensures lines == [] ==> cogs == 0.0
    ensures (forall l :: l in lines ==> l.cogs >= 0.0) ==> cogs >= 0.0
  {
    if lines == [] then 0.0
    else
      assert forall l :: l in lines[1..] ==> l in lines;
      lines[0].cogs + CogsTotal(lines[1..])
  }

  /** The sum of the per-line `margin` column. */
  function MarginTotal(lines: seq<EnrichedLine>): real {
    if lines == [] then 0.0 else lines[0].margin + MarginTotal(lines[1..])
  }

  /** Gross margin (revenue - COGS) is the sum of the line margins. */
  lemma {:induction false} GrossMarginIsMarginSum(lines: seq<EnrichedLine>)
    requires forall l :: l in lines ==> l.margin == l.linePrice - l.cogs
    ensures Revenue(lines) - CogsTotal(lines) == MarginTotal(lines)
  {
    if lines != [] {
      assert lines[0] in lines;
      assert forall l :: l in lines[1..] ==> l in lines;
      GrossMarginIsMarginSum(lines[1..]);
    }
  }

  /** The distinct sale_ids of the lines. */
  function SaleIds(lines: seq<EnrichedLine>): (ids: set<string>)
    ensures |ids| <= |lines|
    ensures forall i :: 0 <= i < |lines| ==> lines[i].saleId in ids
    ensures forall id :: id in ids ==> exists i :: 0 <= i < |lines| && lines[i].saleId == id
  {
    if lines == [] then {}
    else
      var rest := SaleIds(lines[1..]);
      assert forall i :: 1 <= i < |lines| ==> lines[i] == lines[1..][i - 1];
      if lines[0].saleId in rest then
        assert {lines[0].saleId} + rest == rest;
        rest
      else
        assert |{lines[0].saleId} + rest| == 1 + |rest|;
        {lines[0].saleId} + rest
  }

  /** `sales_f["sale_id"].nunique()`: the number of tickets. */
  function Orders(lines: seq<EnrichedLine>): (n: nat)
    ensures n <= |lines|
    ensures n == 0 <==> lines == []
  {
    if lines != [] then assert lines[0].saleId in SaleIds(lines); |SaleIds(lines)| else |SaleIds(lines)|
  }

  /** `avg` times `n` gives back `total` whenever there is something to divide by. */
  predicate IsAverage(avg: real, total: real, n: nat) {
    n > 0 ==> avg * (n as real) == total
  }

  /** The average ticket, guarded against an empty selection. */
  function AvgTicket(revenue: real, orders: nat): (r: real)
    ensures IsAverage(r, revenue, orders)
    ensures orders == 0 ==> r == 0.0
  {
    if orders > 0 then revenue / (orders as real) else 0.0
  }

  /** The (key, line_price) pairs a group-by over the lines sums up. */
  function Entries<K>(lines: seq<EnrichedLine>, key: EnrichedLine -> K): (es: seq<Entry<K>>)
    ensures |es| == |lines|
    ensures forall i :: 0 <= i < |lines| ==> es[i] == Entry(key(lines[i]), lines[i].linePrice)
  {
    if lines == [] then [] else [Entry(key(lines[0]), lines[0].linePrice)] + Entries(lines[1..], key)
  }

  /** Grouping the lines by any key loses no revenue. */
  lemma {:induction false} EntriesTotal<K>(lines: seq<EnrichedLine>, key: EnrichedLine -> K)
    ensures Total(Entries(lines, key)) == Revenue(lines)
  {
    if lines != [] {
      var es := Entries(lines, key);
      assert es[1..] == Entries(lines[1..], key);
      EntriesTotal(lines[1..], key);
    }
  }

  /** The key of the day series: the calendar date of the sale. */
  function DayOf(l: EnrichedLine): int {
    CalendarDate(l.date)
  }

  /** `sales_f.groupby(date.dt.date)["line_price"].sum()`: one row per calendar date present,
      dates ascending, each row the revenue of that day; the rows add up to the revenue. */
  function RevenueByDay(lines: seq<EnrichedLine>): (byDay: seq<Entry<int>>)
    ensures GroupSumOf(byDay, Entries(lines, DayOf))
    ensures forall i, j :: 0 <= i < j < |byDay| ==> byDay[i].key < byDay[j].key
    ensures Total(byDay) == Revenue(lines)
  {
    var es := Entries(lines, DayOf);
    EntriesTotal(lines, DayOf);
    GroupBy(es, AscendingKeys(es))
  }

  /** The key of the payment split. */
  function PaymentOf(l: EnrichedLine): string {
    l.paymentMethod
  }

  /** `sales_f.groupby("payment_method")["line_price"].sum()`: one row per payment method
      present, each its revenue; the rows add up to the revenue. */
  function PaymentSplit(lines: seq<EnrichedLine>): (split: seq<Entry<string>>)
    ensures GroupSumOf(split, Entries(lines, PaymentOf))
    ensures Total(split) == Revenue(lines)
  {
    var es := Entries(lines, PaymentOf);
    EntriesTotal(lines, PaymentOf);
    GroupBy(es, DistinctKeys(es))
  }

  /** The (product_id, name) key of the top-products group-by. */
  type ProductKey = (int, string)

  function ProductKeyOf(l: EnrichedLine): ProductKey {
    (l.productId, l.name.GetOr(""))
  }

  /** The lines that take part in a group-by on name: pandas drops rows whose key is missing. */
  function NamedLines(lines: seq<EnrichedLine>): (named: seq<EnrichedLine>)
    ensures forall l :: l in named <==> l in lines && l.name.Some?
    ensures forall l :: multiset(named)[l] == if l.name.Some? then multiset(lines)[l] else 0
  {
    if lines == [] then []
    else
      assert lines == [lines[0]] + lines[1..];
      assert forall l :: l in lines <==> l == lines[0] || l in lines[1..];
      (if lines[0].name.Some? then [lines[0]] else []) + NamedLines(lines[1..])
  }

  /** `sales_f.groupby(["product_id", "name"])["line_price"].sum()`: one row per
      (product_id, name) present among the lines with a name, each its revenue. */
  function ProductTotals(lines: seq<EnrichedLine>): (g: seq<Entry<ProductKey>>)
    ensures GroupSumOf(g, Entries(NamedLines(lines), ProductKeyOf))
    ensures Total(g) == Revenue(NamedLines(lines))
  {
    var es := Entries(NamedLines(lines), ProductKeyOf);
    EntriesTotal(NamedLines(lines), ProductKeyOf);
    GroupBy(es, DistinctKeys(es))
  }

  /** The top-products table: at most ten product groups, by non-increasing revenue, and no
      group left out sells more than a group kept. */
  function TopProducts(lines: seq<EnrichedLine>): (top: seq<Entry<ProductKey>>)
    ensures |top| <= TOP_N
    ensures |top| == TOP_N || |top| == |ProductTotals(lines)|
    ensures NonIncreasing(top)
    ensures multiset(top) <= multiset(ProductTotals(lines))
    ensures forall e :: e in top ==> e in ProductTotals(lines)
    ensures forall x :: x in ProductTotals(lines) && x !in top ==>
              forall e :: e in top ==> x.amount <= e.amount
  {
    TopByAmount(ProductTotals(lines), TOP_N)
  }

  /** Expenses dated in [d1, d2]; the category and payment filters do not apply to them. */
  function SelectExpenses(expenses: seq<Expense>, d1: int, d2: int): (r: seq<Expense>)
    ensures |r| <= |expenses|
    ensures forall e :: e in r <==> e in expenses && InWindow(e.date, d1, d2)
    ensures forall e :: multiset(r)[e] == if InWindow(e.date, d1, d2) then multiset(expenses)[e] else 0
  {
    if expenses == [] then []
    else
      assert expenses == [expenses[0]] + expenses[1..];
      assert forall e :: e in expenses <==> e == expenses[0] || e in expenses[1..];
      (if InWindow(expenses[0].date, d1, d2) then [expenses[0]] else []) + SelectExpenses(expenses[1..], d1, d2)
  }

  /** The (category, amount) pairs of the expenses. */
  function ExpenseEntries(expenses: seq<Expense>): (es: seq<Entry<string>>)
    ensures |es| == |expenses|
    ensures forall i :: 0 <= i < |expenses| ==> es[i] == Entry(expenses[i].category, expenses[i].amount)
  {
    if expenses == [] then [] else [Entry(expenses[0].category, expenses[0].amount)] + ExpenseEntries(expenses[1..])
  }

  /** `exp_f["amount"].sum()`: 0 for no expenses, and never negative when no amount is. */
  function TotalExpenses(expenses: seq<Expense>): (total: real)
    ensures expenses == [] ==> total == 0.0
    ensures (forall e :: e in expenses ==> e.amount >= 0.0) ==> total >= 0.0
  {
    var es := ExpenseEntries(expenses);
    assert (forall e :: e in expenses ==> e.amount >= 0.0) ==> forall x :: x in es ==> x.amount >= 0.0 by {
      if forall e :: e in expenses ==> e.amount >= 0.0 {
        forall x | x in es ensures x.amount >= 0.0 {
          var i :| 0 <= i < |es| && es[i] == x;
          assert expenses[i] in expenses;
        }
      }
    }
    Total(es)
  }

  /** `exp_f.groupby("category")["amount"].sum()`: one row per expense category, each its
      total; the rows add up to the total expenses. */
  function ExpensesByCategory(expenses: seq<Expense>): (g: seq<Entry<string>>)
    ensures GroupSumOf(g, ExpenseEntries(expenses))
    ensures Total(g) == TotalExpenses(expenses)
  {
    var es := ExpenseEntries(expenses);
    GroupBy(es, DistinctKeys(es))
  }

  /** The date range the sidebar offers by default: the first and last calendar dates of the
      sales table. */
  function SalesDateRange(sales: seq<SaleLine>): (r: (int, int))
    requires sales != []
    ensures forall s :: s in sales ==> InWindow(s.date, r.0, r.1)
    ensures exists s :: s in sales && CalendarDate(s.date) == r.0
    ensures exists s :: s in sales && CalendarDate(s.date) == r.1
  {
    if |sales| == 1 then
      assert sales[0] in sales;
      (CalendarDate(sales[0].date), CalendarDate(sales[0].date))
    else
      var rest := SalesDateRange(sales[1..]);
      var day := CalendarDate(sales[0].date);
      assert sales[0] in sales;
      assert forall s :: s in sales <==> s == sales[0] || s in sales[1..];
      (if day < rest.0 then day else rest.0, if day > rest.1 then day else rest.1)
  }

  /** The tables, loaded and parsed. */
  datatype Dataset = Dataset(
    products: seq<Product>,
    sales: seq<SaleLine>,
    saleColumns: SaleColumns,
    movements: seq<Movement>,
    expenses: seq<Expense>)

  /** Everything the dashboard shows for one sidebar selection. */
  datatype Report = Report(
    lines: seq<EnrichedLine>,
    revenue: real,
    cogsTotal: real,
    grossMargin: real,
    orders: nat,
    avgTicket: real,
    byDay: seq<Entry<int>>,
    topProducts: seq<Entry<ProductKey>>,
    paymentSplit: seq<Entry<string>>,
    totalExpenses: real,
    profit: real,
    expensesByCategory: seq<Entry<string>>,
    lowStock: seq<StockRow>)

  /** One run of the dashboard's computations for the selection `f`. */
  function BuildReport(data: Dataset, f: Filters): (r: Report)
    ensures r.lines == Enrich(data.sales, data.saleColumns, data.products, f)
    ensures r.revenue == Revenue(r.lines) && r.cogsTotal == CogsTotal(r.lines)
    ensures r.grossMargin == r.revenue - r.cogsTotal
    ensures r.orders == Orders(r.lines)
    ensures r.grossMargin == MarginTotal(r.lines)
    ensures r.totalExpenses == TotalExpenses(SelectExpenses(data.expenses, f.d1, f.d2))
    ensures r.profit == MarginTotal(r.lines) - r.totalExpenses
    ensures r.orders == 0 <==> r.lines == []
    ensures IsAverage(r.avgTicket, r.revenue, r.orders)
    ensures r.orders == 0 ==> r.avgTicket == 0.0
    ensures Total(r.byDay) == r.revenue && Total(r.paymentSplit) == r.revenue
    ensures |r.topProducts| <= TOP_N
    ensures r.byDay == RevenueByDay(r.lines) && r.paymentSplit == PaymentSplit(r.lines)
    ensures r.topProducts == TopProducts(r.lines)
    ensures r.expensesByCategory == ExpensesByCategory(SelectExpenses(data.expenses, f.d1, f.d2))
    ensures r.lowStock == LowStock(ComputeStock(data.products, data.movements))
    ensures forall row :: row in r.lowStock <==>
              row in ComputeStock(data.products, data.movements) && IsLow(row)
  {
    var lines := Enrich(data.sales, data.saleColumns, data.products, f);
    var rev, cogs := Revenue(lines), CogsTotal(lines);
    var gm := rev - cogs;
    assert gm == MarginTotal(lines) by {
      GrossMarginIsMarginSum(lines);
    }
    var orders := Orders(lines);
    var avg := AvgTicket(rev, orders);
    var byDay, split := RevenueByDay(lines), PaymentSplit(lines);
    assert Total(byDay) == rev && Total(split) == rev;
    var top := TopProducts(lines);
    assert |top| <= TOP_N;
    var expenses := SelectExpenses(data.expenses, f.d1, f.d2);
    var totalExp := TotalExpenses(expenses);
    var low := LowStock(ComputeStock(data.products, data.movements));
    Report(lines, rev, cogs, gm, orders, avg, byDay, top, split,
           totalExp, gm - totalExp, ExpensesByCategory(expenses), low)
  }

  /** With no payment or category filter and a window holding every sale, nothing is
      filtered out: the lines are all sale lines, enriched, in order. */
  lemma {:induction false} UnfilteredSurvivors(sales: seq<SaleLine>, cols: SaleColumns, products: seq<Product>, f: Filters)
    requires f.payment == ALL && f.category == ALL
    requires forall s :: s in sales ==> InWindow(s.date, f.d1, f.d2)
    ensures Survivors(sales, cols, products, f) == ComputeFields(JoinProducts(sales, cols, products))
  {
    if sales != [] {
      assert sales[0] in sales;
      assert forall s :: s in sales[1..] ==> s in sales;
      UnfilteredSurvivors(sales[1..], cols, products, f);
    }
  }

  /** Selecting the full date range of the data, all categories and all payment methods
      reproduces the unfiltered totals exactly. */
  lemma FullRangeIsUnfiltered(data: Dataset)
    requires data.sales != []
    ensures var range := SalesDateRange(data.sales);
            var r := BuildReport(data, Filters(range.0, range.1, ALL, ALL));
            var all := ComputeFields(JoinProducts(data.sales, data.saleColumns, data.products));
            && r.lines == all
            && r.revenue == Revenue(all)
            && r.cogsTotal == CogsTotal(all)
            && r.orders == Orders(all)
  {
    var range := SalesDateRange(data.sales);
    EnrichIsSurvivors(data.sales, data.saleColumns, data.products, Filters(range.0, range.1, ALL, ALL));
    UnfilteredSurvivors(data.sales, data.saleColumns, data.products, Filters(range.0, range.1, ALL, ALL));
  }

  /** When no sale line passes the filters, every sales aggregate is empty or zero, the
      average ticket is 0 and the profit is minus the expenses. */
  lemma EmptySelection(data: Dataset, f: Filters)
    requires forall s :: s in data.sales ==> !Keeps(s, data.saleColumns, data.products, f)
    ensures var r := BuildReport(data, f);
            && r.lines == [] && r.revenue == 0.0 && r.cogsTotal == 0.0 && r.grossMargin == 0.0
            && r.orders == 0 && r.avgTicket == 0.0
            && r.byDay == [] && r.topProducts == [] && r.paymentSplit == []
            && r.profit == -r.totalExpenses
  {
    EnrichIsSurvivors(data.sales, data.saleColumns, data.products, f);
    NothingKept(data.sales, data.saleColumns, data.products, f);
    var empty: seq<EnrichedLine> := [];
    assert KeySet(Entries(empty, DayOf)) == {};
    assert KeySet(Entries(empty, PaymentOf)) == {};
    assert NamedLines(empty) == [];
    assert KeySet(Entries(NamedLines(empty), ProductKeyOf)) == {};
    assert ProductTotals(empty) == [];
  }

  /** Selecting a category that no sale line has after the merge gives empty sales
      aggregates, all sums zero, and the profit is minus the expenses. */
  lemma UnknownCategoryIsEmpty(data: Dataset, f: Filters)
    requires f.category != ALL
    requires forall s :: s in data.sales ==>
               JoinLine(s, data.saleColumns, data.products).category != Some(f.category)
    ensures var r := BuildReport(data, f);
            && r.lines == [] && r.revenue == 0.0 && r.cogsTotal == 0.0 && r.grossMargin == 0.0
            && r.orders == 0 && r.avgTicket == 0.0
            && r.byDay == [] && r.topProducts == [] && r.paymentSplit == []
            && r.profit == -r.totalExpenses
  {
    EmptySelection(data, f);
  }

  /** Selecting a payment method that no sale line has gives empty sales aggregates, all
      sums zero, and the profit is minus the expenses. */
  lemma UnknownPaymentIsEmpty(data: Dataset, f: Filters)
    requires f.payment != ALL
    requires forall s :: s in data.sales ==> s.paymentMethod != f.payment
    ensures var r := BuildReport(data, f);
            && r.lines == [] && r.revenue == 0.0 && r.cogsTotal == 0.0 && r.grossMargin == 0.0
            && r.orders == 0 && r.avgTicket == 0.0
            && r.byDay == [] && r.topProducts == [] && r.paymentSplit == []
            && r.profit == -r.totalExpenses
  {
    EmptySelection(data, f);
  }

  /** The product of the worked example: unit price 2, cost 1, initial stock 10, min stock 3. */
  function ExampleProduct(): Product {
    Product(1, Some("Pain"), Some("Boulangerie"), Some(2.0), Some(1.0), None, Some(10), Some(3))
  }

  /** The sale line of the worked example: ticket S1, three units of product 1 on day 0. */
  function ExampleSale(): SaleLine {
    SaleLine("S1", 1, Timestamp(0, 36000), Some(3), Some(0.0), "cash", None, None, None, None, None)
  }

  function ExampleData(): Dataset {
    Dataset([ExampleProduct()], [ExampleSale()], SaleColumns(false, false, false, false),
            [Movement(1, Timestamp(0, 0), IN, 5)], [])
  }

  /** Worked example, stock side: 10 initial + 5 in = 15, above the minimum of 3. */
  lemma ExampleStock()
    ensures ComputeStock(ExampleData().products, ExampleData().movements)[0].currentStock == 15
    ensures BuildReport(ExampleData(), Filters(0, 0, ALL, ALL)).lowStock == []
  {
    var data := ExampleData();
    var m := data.movements[0];
    assert MovedQuantity([m], 1, IN) == 5;
    assert MovedQuantity([m], 1, OUT) == 0;
    var stock := ComputeStock(data.products, data.movements);
    assert stock == [StockRow(ExampleProduct(), 15)];
    assert LowStock(stock) == [];
  }

  /** Worked example, one line: priced 3 * 2 = 6, cost 3 * 1 = 3, margin 3. */
  lemma ExampleLine()
    ensures var l := EnrichLine(ExampleSale(), ExampleData().saleColumns, ExampleData().products);
            l.linePrice == 6.0 && l.cogs == 3.0 && l.margin == 3.0 && l.saleId == "S1"
  {
    assert FindProduct([ExampleProduct()], 1) == Some(ExampleProduct());
  }

  /** Worked example, filters: the line is dated inside [0, 0] and is the only survivor. */
  lemma ExampleLines()
    ensures var data := ExampleData();
            Enrich(data.sales, data.saleColumns, data.products, Filters(0, 0, ALL, ALL))
            == [EnrichLine(ExampleSale(), data.saleColumns, data.products)]
  {
    var data := ExampleData();
    var f := Filters(0, 0, ALL, ALL);
    assert Keeps(ExampleSale(), data.saleColumns, data.products, f);
    EnrichIsSurvivors(data.sales, data.saleColumns, data.products, f);
    assert data.sales[1..] == [];
  }

  /** Worked example, KPIs: revenue 6 from one ticket, so the average ticket is 6. */
  lemma ExampleSales()
    ensures var r := BuildReport(ExampleData(), Filters(0, 0, ALL, ALL));
            && |r.lines| == 1
            && r.lines[0].linePrice == 6.0 && r.lines[0].cogs == 3.0 && r.lines[0].margin == 3.0
            && r.revenue == 6.0 && r.orders == 1 && r.avgTicket == 6.0
  {
    ExampleLine();
    ExampleLines();
    var data := ExampleData();
    var l := EnrichLine(ExampleSale(), data.saleColumns, data.products);
    assert [l][1..] == [];
    assert Revenue([l]) == 6.0;
    assert SaleIds([l]) == {"S1"};
    assert Orders([l]) == 1;
  }
}
