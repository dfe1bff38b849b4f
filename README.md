# Shop dashboard reporting pipeline, modelled in Dafny

`app.py` is a Streamlit dashboard for a small shop. Beneath the widgets and charts it runs
a deterministic reporting pipeline over five tables: products, sales lines, inventory
movements, expenses, and a customers table that it never uses. This project models that
pipeline as Dafny datatypes and functions and proves what each stage promises.

- **Stock** (`stock.dfy`). `compute_stock` adds up the "in" and "out" movements of each
  product and derives current_stock = initial_stock + in − out. It keeps one row per
  product, in product order. The low-stock table keeps the rows with
  current_stock <= min_stock.
- **Sales** (`sales.dfy`). The enrichment block runs these steps in order:
  1. filters the sales by calendar date (both ends included);
  2. filters by payment method, where `"(Tous)"` means "no filter";
  3. left-joins the product columns and harmonises them;
  4. filters by the post-join category;
  5. fills missing discount, quantity, unit_price and cost_price with 0;
  6. derives line_price, cogs and margin.

  `Enrich` chains the steps as the code does. `Survivors` is an independent one-pass
  reference definition, and `EnrichIsSurvivors` proves the two equal.
- **Grouping** (`grouping.dfy`). This file models pandas' `groupby(...).sum()`,
  `sort_values(ascending=False)` and `head(n)` over (key, amount) pairs. It proves:
  - group totals partition the column total;
  - integer keys come out ascending;
  - the top-n rows dominate every row they leave out.
- **Reporting** (`reporting.dfy`). This file models:
  - the KPIs: revenue, COGS, gross margin, distinct tickets and the zero-guarded average
    ticket;
  - the revenue-by-day series, the top-10 products and the payment split;
  - the expenses in the date window, grouped by category, and the estimated profit;
  - `BuildReport`, which assembles all of these for one sidebar selection.
- **Tables** (`tables.dfy`). This file holds the record shapes. A missing CSV cell (NaN)
  is `None`. Money is exact `real` and quantities are `int`. A timestamp is a day number
  plus a second of the day, so `.dt.date` drops the time of day.

The sales table may lack some of the product columns (cost_price, tax_rate, name,
category). `SaleColumns` records which of them it carries. The merge only suffixes a
column that both tables carry, so lines 121-128 never fire. Whichever side carries the
column supplies it, and the sale side wins when both do. A present-but-missing cell on the
sale side is therefore *not* filled from the product: a missing cost_price later becomes 0
(line 138), while a missing name, category or tax_rate stays missing. Only unit_price is
filled cell by cell (line 119).

## Model

| member | source | states |
|---|---|---|
| `Stock.ComputeStock` | app.py:60-67 | one row per product, same order, same product record; current stock = initial (0 when missing) + Σ"in" − Σ"out" of that product |
| `Stock.MovedQuantityAppend` | app.py:62-63 | per-product movement sums split over a concatenation of the movement log |
| `Stock.MovedQuantity` | app.py:62-64 | the "in" (or "out") total of one product: 0 when no movement of that product and kind exists (the left merge plus `fillna(0)`), and never negative when no quantity is |
| `Stock.AppendMovement` | app.py:62-65 | one more movement changes every product's stock by exactly its effect: +q for an "in" of that product, −q for an "out", 0 otherwise |
| `Stock.IrrelevantMovement` | app.py:61-67 | a movement of an unknown product_id, or of a kind other than "in"/"out", leaves the whole stock table unchanged |
| `Stock.NoMovementsKeepsInitialStock` | app.py:64-65 | a product without movements keeps its initial stock |
| `Stock.StockMayBeNegative` | app.py:65 | the stock is not clamped: initial 2 and an "out" of 5 give −3 |
| `Stock.IsLow` | app.py:198 | the low test of one stock row: min_stock present and current_stock <= min_stock; a missing min_stock compares false, so the row is never low |
| `Stock.LowStock` | app.py:198 | a row is in the low-stock table iff it is a stock row with min_stock present and current_stock <= min_stock; each low row appears as often as in the stock table (once per product), and no other row appears |
| `Stock.LowStockAppend` | app.py:198 | the low-stock selection of a concatenation is the selection of each part, in that order: the mask keeps table order |
| `Stock.LowStockExactly` | app.py:198 | each product is low iff its current stock <= its min stock (inclusive boundary; a larger stock or a missing min_stock excludes it) |
| `Sales.SelectByDate` | app.py:101-102 | keeps exactly the lines whose calendar date is in [d1, d2], both ends included |
| `Sales.SelectByPayment` | app.py:103-104 | keeps exactly the lines with the chosen payment method; `"(Tous)"` returns the input unchanged |
| `Sales.FindProduct` | app.py:107-112 | the matched product has the sale's product_id; none iff no product has it; with unique ids it is that product |
| `Sales.JoinLine` | app.py:107-128 | unit_price keeps a present sale value and otherwise takes the product's; the other columns come from the sales table when it carries them, else from the matched product, else are missing |
| `Sales.JoinProducts` | app.py:107-112 | the left merge keeps one joined row per sale line, in order |
| `Sales.SelectByCategory` | app.py:131-132 | keeps exactly the joined lines whose post-merge category equals the selection; `"(Tous)"` keeps all; a missing category never matches |
| `Sales.ComputeLine` | app.py:135-142 | identity fields carried over; missing discount, quantity and prices become 0; line_price, cogs and margin satisfy their defining equations |
| `Sales.ComputeFields` | app.py:135-142 | the computed columns are applied row by row, one output row per input row |
| `Sales.Enrich` | app.py:101-142 | never more lines than sales; every output line is in the window, matches the payment and category selections, and has margin = line_price − cogs |
| `Sales.Survivors` | app.py:101-142 | reference definition: a line is present iff it enriches a sale line that passes all three filters |
| `Sales.NothingKept` | app.py:101-132 | when no sale line passes the filters, nothing survives |
| `Sales.EnrichIsSurvivors` | app.py:101-142 | the staged pipeline equals the one-pass reference definition, order included |
| `Sales.SurvivesExactly` | app.py:101-132 | a line is in the enriched table iff its sale line has its date in [d1, d2], a matching payment method (or `"(Tous)"`) and a matching post-merge category (or `"(Tous)"`) |
| `Sales.UnmatchedProductLine` | app.py:107-142 | a sale whose product_id matches no product, with no unit_price of its own, from a sales table that carries none of cost_price, tax_rate, name and category, gets unit_price = cost_price = 0, cogs = 0, line_price = −discount, and no name or category |
| `Sales.DiscountColumnAsWritten` | app.py:135 | as written, the discount step fails exactly when the sales table has no discount column; otherwise it fills missing discounts with 0 |
| `Sales.MissingDiscountColumnRaises` | app.py:135 | without a discount column line 135 fails on every selection, empty or not, while on a non-empty selection the corrected computation yields rows |
| `Sales.NoDiscountMeansFullPrice` | app.py:135-140 | without discounts, every enriched line is priced at unit_price × quantity |
| `Sales.NoDiscountLine` | app.py:135-140 | one line without a discount is priced at unit_price × quantity |
| `Reporting.Revenue` | app.py:145 | the revenue (sum of line_price) is 0 for no lines and never negative when no line_price is |
| `Reporting.CogsTotal` | app.py:146 | the COGS total (sum of cogs) is 0 for no lines and never negative when no line's cogs is |
| `Reporting.GrossMarginIsMarginSum` | app.py:145-147 | gross margin = revenue − COGS equals the sum of the line margins |
| `Reporting.SaleIds` | app.py:148 | the set of sale_ids is exactly those occurring in the lines, and has no more elements than there are lines |
| `Reporting.Orders` | app.py:148 | the ticket count is at most the line count, and is 0 iff there are no lines |
| `Reporting.AvgTicket` | app.py:149 | the average times the ticket count gives the revenue when there are tickets, and the average is 0 when there are none |
| `Reporting.EntriesTotal` | app.py:145 | the (key, line_price) pairs of any group-by add up to the revenue |
| `Reporting.RevenueByDay` | app.py:159 | one row per calendar date present, dates strictly ascending, each row that day's revenue; rows add up to the revenue |
| `Reporting.PaymentSplit` | app.py:173 | one row per payment method present, each its revenue; rows add up to the revenue |
| `Reporting.NamedLines` | app.py:167 | the group-by on name sees exactly the lines whose name is present, each as many times as it occurs in the input, and no other line |
| `Reporting.ProductTotals` | app.py:167-168 | one row per (product_id, name) pair present, each its revenue; rows add up to the revenue of the named lines |
| `Reporting.TopProducts` | app.py:167-168 | at most 10 product groups, each group of the totals at most once (so all of them, once each, when there are fewer), in non-increasing revenue; no group left out sells more than a group kept |
| `Reporting.SelectExpenses` | app.py:179 | keeps exactly the expenses dated in [d1, d2], each as many times as it occurs, and drops all others; category and payment do not apply |
| `Reporting.TotalExpenses` | app.py:180 | the expense total is 0 for no expenses and never negative when no amount is |
| `Reporting.ExpensesByCategory` | app.py:186 | one row per expense category, each its total; rows add up to the total expenses |
| `Reporting.SalesDateRange` | app.py:91 | the default window holds every sale, and both its ends are dates of actual sales |
| `Reporting.BuildReport` | app.py:145-198 | the lines are the enriched selection for `f`; revenue, COGS and tickets are those of the lines; gross margin = revenue − COGS and is the margin sum; total expenses are those of the window; profit = gross margin − expenses; tickets 0 iff no lines; the average is guarded; the day series, payment split and top products are those of the lines (ascending dates, per-method totals, the ranked top 10), and the first two add up to revenue; the expense breakdown is that of the window's expenses; the low-stock table is the low-stock selection of the computed stock, exactly the low rows |
| `Reporting.UnfilteredSurvivors` | app.py:101-132 | with `"(Tous)"` for both filters and a window holding every sale, every sale line survives, in order |
| `Reporting.FullRangeIsUnfiltered` | app.py:91-104 | the default selection (full date range, no filters) reproduces the unfiltered lines, revenue, COGS and ticket count |
| `Reporting.EmptySelection` | app.py:145-181 | when nothing passes the filters: no lines, zero revenue, COGS, margin and tickets, average 0, empty series, profit = −expenses |
| `Reporting.UnknownCategoryIsEmpty` | app.py:131-132 | a category that no line has after the merge gives no lines, zero revenue, COGS, margin and tickets, average 0, empty series and payment split, profit = −expenses |
| `Reporting.UnknownPaymentIsEmpty` | app.py:103-104 | a payment method that no line has gives no lines, zero revenue, COGS, margin and tickets, average 0, empty series and payment split, profit = −expenses |
| `Reporting.ExampleStock` | app.py:60-67 | worked example: stock 10 + 5 in = 15, above min 3, so nothing is low |
| `Reporting.ExampleLine` | app.py:135-142 | worked example: 3 units at 2 cost 1 give line_price 6, cogs 3, margin 3 |
| `Reporting.ExampleLines` | app.py:101-132 | worked example: the single in-window line is the only survivor |
| `Reporting.ExampleSales` | app.py:145-149 | worked example: revenue 6 from one ticket, average ticket 6 |
| `Grouping.Total` | app.py:159 | the `.sum()` of an amount column is 0 for no rows and never negative when no amount is |
| `Grouping.GroupTotalsSum` | app.py:159 | group totals over keys that cover every entry exactly once add up to the ungrouped total |
| `Grouping.AscendingKeys` | app.py:159 | the group keys of an integer group-by are strictly ascending and are exactly the keys present |
| `Grouping.DistinctKeys` | app.py:173 | the group keys are distinct and are exactly the keys present |
| `Grouping.GroupBy` | app.py:173 | a group-by sum: distinct keys, one row per key present, each row its key's total, rows in the given key order, totals adding up |
| `Grouping.SortByAmountDesc` | app.py:168 | `sort_values(ascending=False)` is a permutation in non-increasing amount order |
| `Grouping.InsertByAmount` | app.py:168 | inserting into a non-increasing list keeps it non-increasing and adds exactly that row |
| `Grouping.Head` | app.py:168 | `head(n)` is the prefix of length min(n, rows) |
| `Grouping.TopByAmount` | app.py:167-168 | sort-then-head returns min(n, rows) rows of the input, each at most as often as it occurs there, non-increasing, and every row left out is no larger than every row kept |

## Left out

- Authentication, the secret store, CSV loading and caching, and date parsing are not modelled. They are framework state and file I/O. The tables are inputs with dates already parsed.
- Rendering is not modelled: KPI cards, their `:,.0f` formatting, the charts, `st.dataframe`, the sidebar widgets (including the category and payment option lists of lines 93-96), the logo, CSV export and `DEMO_MODE`.
- Money is exact `real`. The floating-point rounding of pandas sums is not modelled.
- Reporting.TopProducts: the order among equal revenues is left open, because pandas does not guarantee a stable sort here.
- Reporting.PaymentSplit: pandas returns string group keys sorted. The model proves the group contents and totals but leaves the row order open. The same holds for `Reporting.ExpensesByCategory` and `Reporting.ProductTotals`.
- Sales.FindProduct: product_id is treated as the product table's key. With duplicate ids, pandas' merges would multiply the sale rows (and the stock rows at line 67). The model takes the first match, and its relational contracts assume unique ids.
- Payment method and expense category are plain strings. A missing (NaN) payment method or expense category is not modelled, though pandas would drop it from those group-bys. Missing names are modelled (`Reporting.NamedLines`).
- Reporting.TotalExpenses: expense amounts are plain reals. A missing (NaN) expense amount, which the sum at line 180 would skip, is not modelled.
- Reporting.Orders: sale_id is a plain string. A missing (NaN) sale_id, which `nunique()` (line 148) would not count, is not modelled, so "0 tickets iff no lines" holds only for tables whose sale_ids are all present.
- Stock.MovedQuantity: movement quantities are integers. A missing (NaN) quantity, which the `sum()` of lines 62-63 would skip, is not modelled.
- Sales.JoinLine carries tax_rate through the merge, but nothing downstream uses it, as in the source.
- Stock.LowStock keeps whole stock rows. The projection to five display columns (line 198) and the re-merge of lines 194-196 are not modelled. That re-merge never fires, because `compute_stock` already returns every product column.
- Reporting.SalesDateRange requires a non-empty sales table. On an empty one, pandas yields no dates and there is no default window to model.
- The customers table is loaded but never used by the pipeline.

## Findings

| source | as written | input that shows it | evidently intended | confidence | as-written member | corrected member |
|---|---|---|---|---|---|---|
| app.py:135 | `sales_f.get("discount", 0.0)` returns the float 0.0 when the column is absent, and `.fillna` is then called on a float, which raises | a sales table without a `discount` column | a missing discount column means no discount: every discount is 0 and line_price = unit_price × quantity (`Sales.NoDiscountMeansFullPrice`) | not executed | `Sales.DiscountColumnAsWritten` | `Sales.ComputeFields` |
