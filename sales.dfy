/** The sales enrichment pipeline: date and payment filters, left merge of the product
    columns, harmonisation, category filter and the computed money columns. */
module Sales {
  import opened Tables

  /** A sale line after the merge and the harmonisation of the product columns. */
  datatype JoinedLine = JoinedLine(
    sale: SaleLine,
    name: Option<string>,
    category: Option<string>,
    unitPrice: Option<real>,
    costPrice: Option<real>,
    taxRate: Option<real>)

  /** A row of the filtered, enriched sales table. */
  datatype EnrichedLine = EnrichedLine(
    saleId: string,
    productId: int,
    date: Timestamp,
    paymentMethod: string,
    name: Option<string>,
    category: Option<string>,
    taxRate: Option<real>,
    quantity: real,
    discount: real,
    unitPrice: real,
    costPrice: real,
    linePrice: real,
    cogs: real,
    margin: real)

  /** Step 1: keep the lines whose calendar date is in [d1, d2]. */
  function SelectByDate(sales: seq<SaleLine>, d1: int, d2: int): (r: seq<SaleLine>)
    ensures |r| <= |sales|
    ensures forall s :: s in r <==> s in sales && InWindow(s.date, d1, d2)
  {
    if sales == [] then []
    else
      assert forall s :: s in sales <==> s == sales[0] || s in sales[1..];
      (if InWindow(sales[0].date, d1, d2) then [sales[0]] else []) + SelectByDate(sales[1..], d1, d2)
  }

  predicate PaymentMatches(s: SaleLine, pay: string) {
    pay == ALL || s.paymentMethod == pay
  }

  /** Step 2: keep the lines paid with `pay`; the sentinel ALL keeps every line. */
  function SelectByPayment(sales: seq<SaleLine>, pay: string): (r: seq<SaleLine>)
    ensures |r| <= |sales|
    ensures pay == ALL ==> r == sales
    ensures forall s :: s in r <==> s in sales && PaymentMatches(s, pay)
  {
    if sales == [] then []
    else
      assert sales == [sales[0]] + sales[1..];
      assert forall s :: s in sales <==> s == sales[0] || s in sales[1..];
      (if PaymentMatches(sales[0], pay) then [sales[0]] else []) + SelectByPayment(sales[1..], pay)
  }

  predicate UniqueProductIds(products: seq<Product>) {
    forall i, j :: 0 <= i < j < |products| ==> products[i].productId != products[j].productId
  }

  /** The product row a sale line's product_id matches, if any. */
  function FindProduct(products: seq<Product>, id: int): (r: Option<Product>)
    ensures r.Some? ==> r.value in products && r.value.productId == id
    ensures r.None? <==> forall p :: p in products ==> p.productId != id
    ensures UniqueProductIds(products) ==>
              forall p :: p in products && p.productId == id ==> r == Some(p)
  {
    if products == [] then None
    else if products[0].productId == id then
      assert forall k :: 0 <= k < |products| && products[k].productId == id && UniqueProductIds(products) ==> k == 0;
      Some(products[0])
    else
      var rest := FindProduct(products[1..], id);
      assert forall p :: p in products <==> p == products[0] || p in products[1..];
      assert UniqueProductIds(products) ==> UniqueProductIds(products[1..]) by {
        if UniqueProductIds(products) {
          forall i, j | 0 <= i < j < |products[1..]|
            ensures products[1..][i].productId != products[1..][j].productId
          {
            assert products[1..][i] == products[i + 1] && products[1..][j] == products[j + 1];
          }
        }
      }
      rest
  }

  /** A product column on the right-hand side of the left merge: missing when no product matches. */
  function ProductColumn<T>(prod: Option<Product>, column: Product -> Option<T>): Option<T> {
    match prod
    case Some(p) => column(p)
    case None => None
  }

  function NameOf(p: Product): Option<string> { p.name }
  function CategoryOf(p: Product): Option<string> { p.category }
  function UnitPriceOf(p: Product): Option<real> { p.unitPrice }
  function CostPriceOf(p: Product): Option<real> { p.costPrice }
  function TaxRateOf(p: Product): Option<real> { p.taxRate }

  /** Steps 3 and 4 for one line: the left merge on product_id, then the harmonisation.
      unit_price keeps the sale's value and fills only its missing cells from the product;
      every other product column comes from the sales table when that table carries the
      column, and from the product otherwise. */
  function JoinLine(s: SaleLine, cols: SaleColumns, products: seq<Product>): (j: JoinedLine)
    ensures j.sale == s
    ensures s.unitPrice.Some? ==> j.unitPrice == s.unitPrice
    ensures UniqueProductIds(products) ==>
              forall p :: p in products && p.productId == s.productId ==>
                && j.unitPrice == (if s.unitPrice.Some? then s.unitPrice else p.unitPrice)
                && j.costPrice == (if cols.costPrice then s.costPrice else p.costPrice)
                && j.taxRate == (if cols.taxRate then s.taxRate else p.taxRate)
                && j.name == (if cols.name then s.name else p.name)
                && j.category == (if cols.category then s.category else p.category)
    ensures (forall p :: p in products ==> p.productId != s.productId) ==>
              && j.unitPrice == s.unitPrice
              && j.costPrice == (if cols.costPrice then s.costPrice else None)
              && j.taxRate == (if cols.taxRate then s.taxRate else None)
              && j.name == (if cols.name then s.name else None)
              && j.category == (if cols.category then s.category else None)
  {
    var prod := FindProduct(products, s.productId);
    JoinedLine(
      s,
      if cols.name then s.name else ProductColumn(prod, NameOf),
      if cols.category then s.category else ProductColumn(prod, CategoryOf),
      if s.unitPrice.Some? then s.unitPrice else ProductColumn(prod, UnitPriceOf),
      if cols.costPrice then s.costPrice else ProductColumn(prod, CostPriceOf),
      if cols.taxRate then s.taxRate else ProductColumn(prod, TaxRateOf))
  }

  /** Steps 3 and 4 over the table: one joined row per sale line, in order. */
  function JoinProducts(sales: seq<SaleLine>, cols: SaleColumns, products: seq<Product>): (js: seq<JoinedLine>)
    ensures |js| == |sales|
    ensures forall i :: 0 <= i < |sales| ==> js[i] == JoinLine(sales[i], cols, products)
  {
    if sales == [] then [] else [JoinLine(sales[0], cols, products)] + JoinProducts(sales[1..], cols, products)
  }

  predicate CategoryMatches(j: JoinedLine, cat: string) {
    cat == ALL || j.category == Some(cat)
  }

  /** Step 5: after the merge, keep the lines of category `cat`; ALL keeps every line, and
      a line with a missing category never equals a selected category. */
  function SelectByCategory(js: seq<JoinedLine>, cat: string): (r: seq<JoinedLine>)
    ensures |r| <= |js|
    ensures cat == ALL ==> r == js
    ensures forall j :: j in r <==> j in js && CategoryMatches(j, cat)
  {
    if js == [] then []
    else
      assert js == [js[0]] + js[1..];
      assert forall j :: j in js <==> j == js[0] || j in js[1..];
      (if CategoryMatches(js[0], cat) then [js[0]] else []) + SelectByCategory(js[1..], cat)
  }

  /** Step 6 for one line: missing discount, quantity, unit_price and cost_price become 0,
      then line_price, cogs and margin are derived. */
  function ComputeLine(j: JoinedLine): (l: EnrichedLine)
    ensures l.saleId == j.sale.saleId && l.productId == j.sale.productId && l.date == j.sale.date
    ensures l.paymentMethod == j.sale.paymentMethod && l.name == j.name && l.category == j.category
    ensures l.quantity == (if j.sale.quantity.Some? then j.sale.quantity.value as real else 0.0)
    ensures l.discount == j.sale.discount.GetOr(0.0)
    ensures l.unitPrice == j.unitPrice.GetOr(0.0) && l.costPrice == j.costPrice.GetOr(0.0)
    ensures l.linePrice == l.unitPrice * l.quantity - l.discount
    ensures l.cogs == l.costPrice * l.quantity
    ensures l.margin == l.linePrice - l.cogs
  {
    var s := j.sale;
    var quantity := if s.quantity.Some? then s.quantity.value as real else 0.0;
    var discount := s.discount.GetOr(0.0);
    var unitPrice := j.unitPrice.GetOr(0.0);
    var costPrice := j.costPrice.GetOr(0.0);
    var linePrice := unitPrice * quantity - discount;
    var cogs := costPrice * quantity;
    EnrichedLine(s.saleId, s.productId, s.date, s.paymentMethod, j.name, j.category, j.taxRate,
                 quantity, discount, unitPrice, costPrice, linePrice, cogs, linePrice - cogs)
  }

  /** Step 6 over the table: the computed columns, row by row. */
  function ComputeFields(js: seq<JoinedLine>): (ls: seq<EnrichedLine>)
    ensures |ls| == |js|
    ensures forall i :: 0 <= i < |js| ==> ls[i] == ComputeLine(js[i])
  {
    if js == [] then [] else [ComputeLine(js[0])] + ComputeFields(js[1..])
  }

  /** The whole block, in the order the dashboard runs it: date filter, payment filter,
      merge and harmonisation, category filter, computed columns. */
  function Enrich(sales: seq<SaleLine>, cols: SaleColumns, products: seq<Product>, f: Filters): (ls: seq<EnrichedLine>)
    ensures |ls| <= |sales|
    ensures forall l :: l in ls ==>
      && InWindow(l.date, f.d1, f.d2)
      && (f.payment == ALL || l.paymentMethod == f.payment)
      && (f.category == ALL || l.category == Some(f.category))
      && l.margin == l.linePrice - l.cogs
  {
    var dated := SelectByDate(sales, f.d1, f.d2);
    var paid := SelectByPayment(dated, f.payment);
    var joined := JoinProducts(paid, cols, products);
    var kept := SelectByCategory(joined, f.category);
    var ls := ComputeFields(kept);
    assert forall l :: l in ls ==> exists j :: j in kept && l == ComputeLine(j) by {
      forall l | l in ls ensures exists j :: j in kept && l == ComputeLine(j) {
        var i :| 0 <= i < |ls| && ls[i] == l;
        assert kept[i] in kept;
      }
    }
    assert forall j :: j in joined ==> exists s :: s in paid && j == JoinLine(s, cols, products) by {
      forall j | j in joined ensures exists s :: s in paid && j == JoinLine(s, cols, products) {
        var i :| 0 <= i < |joined| && joined[i] == j;
        assert paid[i] in paid;
      }
    }
    ls
  }

  /** The filters' combined test for one sale line, on the line's post-merge category. */
  predicate Keeps(s: SaleLine, cols: SaleColumns, products: seq<Product>, f: Filters) {
    && InWindow(s.date, f.d1, f.d2)
    && PaymentMatches(s, f.payment)
    && CategoryMatches(JoinLine(s, cols, products), f.category)
  }

  /** One sale line taken through the merge and the computed columns. */
  function EnrichLine(s: SaleLine, cols: SaleColumns, products: seq<Product>): EnrichedLine {
    ComputeLine(JoinLine(s, cols, products))
  }

  /** Reference definition of the block in one pass: every sale line the three filters keep,
      enriched, in input order. */
  function Survivors(sales: seq<SaleLine>, cols: SaleColumns, products: seq<Product>, f: Filters): (ls: seq<EnrichedLine>)
    ensures forall l :: l in ls <==>
      exists s :: s in sales && Keeps(s, cols, products, f) && l == EnrichLine(s, cols, products)
  {
    if sales == [] then []
    else
      assert forall s :: s in sales <==> s == sales[0] || s in sales[1..];
      (if Keeps(sales[0], cols, products, f) then [EnrichLine(sales[0], cols, products)] else [])
      + Survivors(sales[1..], cols, products, f)
  }

  /** When the filters keep no sale line, nothing survives. */
  lemma {:induction false} NothingKept(sales: seq<SaleLine>, cols: SaleColumns, products: seq<Product>, f: Filters)
    requires forall s :: s in sales ==> !Keeps(s, cols, products, f)
    ensures Survivors(sales, cols, products, f) == []
  {
    if sales != [] {
      assert sales[0] in sales;
      assert forall s :: s in sales[1..] ==> s in sales;
      NothingKept(sales[1..], cols, products, f);
    }
  }

  lemma {:induction false} SelectByPaymentAppend(a: seq<SaleLine>, b: seq<SaleLine>, pay: string)
    ensures SelectByPayment(a + b, pay) == SelectByPayment(a, pay) + SelectByPayment(b, pay)
  {
    if a == [] {
      assert a + b == b;
    } else {
      assert (a + b)[1..] == a[1..] + b;
      SelectByPaymentAppend(a[1..], b, pay);
    }
  }

  lemma {:induction false} JoinProductsAppend(a: seq<SaleLine>, b: seq<SaleLine>, cols: SaleColumns, products: seq<Product>)
    ensures JoinProducts(a + b, cols, products) == JoinProducts(a, cols, products) + JoinProducts(b, cols, products)
  {
    if a == [] {
      assert a + b == b;
    } else {
      assert (a + b)[1..] == a[1..] + b;
      JoinProductsAppend(a[1..], b, cols, products);
    }
  }

  lemma {:induction false} SelectByCategoryAppend(a: seq<JoinedLine>, b: seq<JoinedLine>, cat: string)
    ensures SelectByCategory(a + b, cat) == SelectByCategory(a, cat) + SelectByCategory(b, cat)
  {
    if a == [] {
      assert a + b == b;
    } else {
      assert (a + b)[1..] == a[1..] + b;
      SelectByCategoryAppend(a[1..], b, cat);
    }
  }

  lemma {:induction false} ComputeFieldsAppend(a: seq<JoinedLine>, b: seq<JoinedLine>)
    ensures ComputeFields(a + b) == ComputeFields(a) + ComputeFields(b)
  {
    if a == [] {
      assert a + b == b;
    } else {
      assert (a + b)[1..] == a[1..] + b;
      ComputeFieldsAppend(a[1..], b);
    }
  }

  /** Everything after the date filter, as `Enrich` chains it. */
  function AfterDateFilter(dated: seq<SaleLine>, cols: SaleColumns, products: seq<Product>, f: Filters): seq<EnrichedLine> {
    ComputeFields(SelectByCategory(JoinProducts(SelectByPayment(dated, f.payment), cols, products), f.category))
  }

  lemma AfterDateFilterAppend(a: seq<SaleLine>, b: seq<SaleLine>, cols: SaleColumns, products: seq<Product>, f: Filters)
    ensures AfterDateFilter(a + b, cols, products, f) == AfterDateFilter(a, cols, products, f) + AfterDateFilter(b, cols, products, f)
  {
    SelectByPaymentAppend(a, b, f.payment);
    var pa, pb := SelectByPayment(a, f.payment), SelectByPayment(b, f.payment);
    JoinProductsAppend(pa, pb, cols, products);
    var ja, jb := JoinProducts(pa, cols, products), JoinProducts(pb, cols, products);
    SelectByCategoryAppend(ja, jb, f.category);
    ComputeFieldsAppend(SelectByCategory(ja, f.category), SelectByCategory(jb, f.category));
  }

  lemma AfterDateFilterSingle(s: SaleLine, cols: SaleColumns, products: seq<Product>, f: Filters)
    requires InWindow(s.date, f.d1, f.d2)
    ensures AfterDateFilter([s], cols, products, f)
            == if Keeps(s, cols, products, f) then [EnrichLine(s, cols, products)] else []
  {
    assert [s][1..] == [];
    var paid := SelectByPayment([s], f.payment);
    assert paid == if PaymentMatches(s, f.payment) then [s] else [];
    var joined := JoinProducts(paid, cols, products);
    if PaymentMatches(s, f.payment) {
      assert joined == [JoinLine(s, cols, products)];
      assert [JoinLine(s, cols, products)][1..] == [];
    }
  }

  /** The filter-merge-filter-compute block computes exactly the reference definition: the
      surviving sale lines, enriched, in input order. */
  lemma {:induction false} EnrichIsSurvivors(sales: seq<SaleLine>, cols: SaleColumns, products: seq<Product>, f: Filters)
    ensures Enrich(sales, cols, products, f) == Survivors(sales, cols, products, f)
  {
    if sales == [] {
    } else {
      var s, rest := sales[0], sales[1..];
      var head := if InWindow(s.date, f.d1, f.d2) then [s] else [];
      assert SelectByDate(sales, f.d1, f.d2) == head + SelectByDate(rest, f.d1, f.d2);
      AfterDateFilterAppend(head, SelectByDate(rest, f.d1, f.d2), cols, products, f);
      if InWindow(s.date, f.d1, f.d2) {
        AfterDateFilterSingle(s, cols, products, f);
      } else {
        assert SelectByPayment([], f.payment) == [];
        assert AfterDateFilter([], cols, products, f) == [];
      }
      EnrichIsSurvivors(rest, cols, products, f);
    }
  }

  /** A line is in the enriched table iff it comes from a sale line whose date is in
      [d1, d2], whose payment method matches (or the filter is ALL) and whose post-merge
      category matches (or the filter is ALL). */
  lemma SurvivesExactly(sales: seq<SaleLine>, cols: SaleColumns, products: seq<Product>, f: Filters)
    ensures forall l :: l in Enrich(sales, cols, products, f) <==>
      exists s :: s in sales && Keeps(s, cols, products, f) && l == EnrichLine(s, cols, products)
  {
    EnrichIsSurvivors(sales, cols, products, f);
  }

  /** A sale line whose product_id matches no product, from a sales table that carries no
      price columns of its own, is kept with unit_price = cost_price = 0, so cogs = 0 and
      line_price = -discount; its name and category are missing. */
  lemma UnmatchedProductLine(s: SaleLine, products: seq<Product>)
    requires forall p :: p in products ==> p.productId != s.productId
    requires s.unitPrice.None?
    ensures var l := EnrichLine(s, SaleColumns(false, false, false, false), products);
            && l.unitPrice == 0.0 && l.costPrice == 0.0
            && l.cogs == 0.0 && l.linePrice == -l.discount
            && l.name.None? && l.category.None?
  {
  }

  /** Line 135 as written: `sales_f.get("discount", 0.0)` returns the float 0.0 when the
      sales table has no discount column, and calling `fillna` on a float raises; `None` is
      that failure. With the column, missing cells become 0. */
  function DiscountColumnAsWritten(hasDiscountColumn: bool, js: seq<JoinedLine>): (r: Option<seq<real>>)
    ensures r.None? <==> !hasDiscountColumn
    ensures r.Some? ==> |r.value| == |js| && forall i :: 0 <= i < |js| ==> r.value[i] == js[i].sale.discount.GetOr(0.0)
  {
    if !hasDiscountColumn then None
    else Some(seq(|js|, i requires 0 <= i < |js| => js[i].sale.discount.GetOr(0.0)))
  }

  /** The failure of line 135 without a discount column, for any table, including a
      non-empty selection for which the corrected computation yields rows. */
  lemma MissingDiscountColumnRaises(js: seq<JoinedLine>)
    ensures DiscountColumnAsWritten(false, js).None?
    ensures js != [] ==> ComputeFields(js) != []
  {
  }

  /** A line sold at full price: no discount, line_price = unit_price * quantity. */
  predicate FullPrice(l: EnrichedLine) {
    l.discount == 0.0 && l.linePrice == l.unitPrice * l.quantity
  }

  /** The intended behaviour, which `ComputeFields` implements: a table without discounts
      (as when the column is absent) prices every line at unit_price * quantity. */
  lemma {:induction false} NoDiscountMeansFullPrice(js: seq<JoinedLine>)
    requires forall j :: j in js ==> j.sale.discount.None?
    ensures forall l :: l in ComputeFields(js) ==> FullPrice(l)
  {
    var ls := ComputeFields(js);
    forall l | l in ls ensures FullPrice(l) {
      var i :| 0 <= i < |ls| && ls[i] == l;
      assert js[i] in js;
      NoDiscountLine(js[i]);
    }
  }

  lemma NoDiscountLine(j: JoinedLine)
    requires j.sale.discount.None?
    ensures FullPrice(ComputeLine(j))
  {
  }
}
