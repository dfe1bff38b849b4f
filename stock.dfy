/** The stock calculator (`compute_stock`) and the low-stock selection. */
module Stock {
  import opened Tables

  const IN: string := "in"
  const OUT: string := "out"

  /** Sum of the quantities of the movements of kind `kind` for product `productId`
      (one cell of `inventory[inventory["type"] == kind].groupby("product_id")["quantity"].sum()`,
      0 when the group is absent, as after the left merge and `fillna(0)`), and never negative
      when no quantity is. */
  function MovedQuantity(movements: seq<Movement>, productId: int, kind: string): (q: int)
    ensures (forall m :: m in movements ==> m.productId != productId || m.kind != kind) ==> q == 0
    ensures (forall m :: m in movements ==> m.quantity >= 0) ==> q >= 0
  {
    if movements == [] then 0
    else
      var m := movements[0];
      assert forall x :: x in movements[1..] ==> x in movements;
      (if m.productId == productId && m.kind == kind then m.quantity else 0)
      + MovedQuantity(movements[1..], productId, kind)
  }

  /** Initial stock after `fillna(0)`. */
  function InitialStock(p: Product): int {
    p.initialStock.GetOr(0)
  }

  /** A product row with its computed `current_stock` column. */
  datatype StockRow = StockRow(product: Product, currentStock: int)

  /** `compute_stock`: the product table, in product order, with
      current_stock = initial_stock + in_qty - out_qty appended to every row. */
  function ComputeStock(products: seq<Product>, movements: seq<Movement>): (rows: seq<StockRow>)
    ensures |rows| == |products|
    ensures forall i :: 0 <= i < |rows| ==>
      && rows[i].product == products[i]
      && rows[i].currentStock
         == InitialStock(products[i])
            + MovedQuantity(movements, products[i].productId, IN)
            - MovedQuantity(movements, products[i].productId, OUT)
  {
    seq(|products|, i requires 0 <= i < |products| =>
      StockRow(products[i],
               InitialStock(products[i])
               + MovedQuantity(movements, products[i].productId, IN)
               - MovedQuantity(movements, products[i].productId, OUT)))
  }

  /** The movement log is a concatenation: per-product sums split along it. */
  lemma {:induction false} MovedQuantityAppend(a: seq<Movement>, b: seq<Movement>, productId: int, kind: string)
    ensures MovedQuantity(a + b, productId, kind)
            == MovedQuantity(a, productId, kind) + MovedQuantity(b, productId, kind)
  {
    if a == [] {
      assert a + b == b;
    } else {
      assert (a + b)[1..] == a[1..] + b;
      MovedQuantityAppend(a[1..], b, productId, kind);
    }
  }

  /** What one movement changes in the stock of product `productId`: +quantity for an "in",
      -quantity for an "out" of that product, nothing otherwise. */
  function Effect(m: Movement, productId: int): int {
    if m.productId != productId then 0
    else if m.kind == IN then m.quantity
    else if m.kind == OUT then -m.quantity
    else 0
  }

  /** Incremental reading of `compute_stock`: appending a movement to the log changes the
      stock of every product by that movement's effect on it, and nothing else. */
  lemma AppendMovement(products: seq<Product>, movements: seq<Movement>, m: Movement)
    ensures var before := ComputeStock(products, movements);
            var after := ComputeStock(products, movements + [m]);
            && |after| == |before|
            && forall i :: 0 <= i < |after| ==>
                 && after[i].product == before[i].product
                 && after[i].currentStock == before[i].currentStock + Effect(m, products[i].productId)
  {
    var before := ComputeStock(products, movements);
    var after := ComputeStock(products, movements + [m]);
    forall i | 0 <= i < |products|
      ensures after[i].currentStock == before[i].currentStock + Effect(m, products[i].productId)
    {
      var id := products[i].productId;
      MovedQuantityAppend(movements, [m], id, IN);
      MovedQuantityAppend(movements, [m], id, OUT);
    }
  }

  /** Movements whose product_id is not a product's, or whose type is neither "in" nor
      "out", leave the whole stock table unchanged. */
  lemma IrrelevantMovement(products: seq<Product>, movements: seq<Movement>, m: Movement)
    requires (forall p :: p in products ==> p.productId != m.productId) || (m.kind != IN && m.kind != OUT)
    ensures ComputeStock(products, movements + [m]) == ComputeStock(products, movements)
  {
    AppendMovement(products, movements, m);
    var before := ComputeStock(products, movements);
    var after := ComputeStock(products, movements + [m]);
    forall i | 0 <= i < |products| ensures after[i] == before[i] {
      assert products[i] in products;
      assert Effect(m, products[i].productId) == 0;
    }
  }

  /** A product without movements keeps its initial stock (0 when that cell is missing). */
  lemma NoMovementsKeepsInitialStock(products: seq<Product>, movements: seq<Movement>, i: nat)
    requires i < |products|
    requires forall m :: m in movements ==> m.productId != products[i].productId
    ensures ComputeStock(products, movements)[i].currentStock == InitialStock(products[i])
  {
  }

  /** The stock is not clamped: more "out" than initial plus "in" gives a negative stock. */
  lemma StockMayBeNegative()
    ensures var p := Product(1, None, None, None, None, None, Some(2), Some(0));
            var m := Movement(1, Timestamp(0, 0), OUT, 5);
            ComputeStock([p], [m])[0].currentStock == -3
  {
    var m := Movement(1, Timestamp(0, 0), OUT, 5);
    assert MovedQuantity([m], 1, IN) == 0;
    assert MovedQuantity([m], 1, OUT) == 5;
  }

  /** The low-stock test of line 198; a missing min_stock compares as NaN, so never low. */
  predicate IsLow(r: StockRow) {
    r.product.minStock.Some? && r.currentStock <= r.product.minStock.value
  }

  /** The low-stock table: the stock rows with current_stock <= min_stock, in table order,
      each low row as often as the table holds it and no other row. */
  function LowStock(rows: seq<StockRow>): (low: seq<StockRow>)
    ensures |low| <= |rows|
    ensures forall r :: r in low <==> r in rows && IsLow(r)
    ensures forall r :: multiset(low)[r] == if IsLow(r) then multiset(rows)[r] else 0
  {
    if rows == [] then []
    else
      assert rows == [rows[0]] + rows[1..];
      assert forall r :: r in rows <==> r == rows[0] || r in rows[1..];
      (if IsLow(rows[0]) then [rows[0]] else []) + LowStock(rows[1..])
  }

  /** The low-stock selection keeps table order: it splits along any concatenation of the table. */
  lemma {:induction false} LowStockAppend(x: seq<StockRow>, y: seq<StockRow>)
    ensures LowStock(x + y) == LowStock(x) + LowStock(y)
  {
    if x == [] {
      assert x + y == y;
    } else {
      assert (x + y)[1..] == x[1..] + y;
      LowStockAppend(x[1..], y);
    }
  }

  /** Every product is in the low-stock list exactly when its current stock is at most its
      min stock: the boundary is inclusive, and a larger stock excludes it. */
  lemma LowStockExactly(products: seq<Product>, movements: seq<Movement>, i: nat)
    requires i < |products|
    ensures var row := ComputeStock(products, movements)[i];
            row in LowStock(ComputeStock(products, movements))
            <==> products[i].minStock.Some? && row.currentStock <= products[i].minStock.value
  {
    var rows := ComputeStock(products, movements);
    assert rows[i] in rows;
  }
}
