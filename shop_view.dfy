/**
 * The pro-shop screen of src/components/InventoryManager.tsx: the low-stock
 * and out-of-stock lists, the stock value and this month's sales on its
 * cards, and each row's margin and stock badge. The month and year a sale's
 * timestamp falls in, in local time, is the oracle `monthOf`; `now` is the
 * current month and year.
 */
module ShopView {
  import opened Seqs

  datatype ShopItem = ShopItem(id: string, name: string, sku: string, price: real, cost: real,
                               quantity: int, reorderLevel: int)

  datatype Sale = Sale(id: string, total: real, timestamp: string)

  datatype MonthOfYear = MonthOfYear(month: int, year: int)

  predicate IsLowStock(item: ShopItem) {
    item.quantity <= item.reorderLevel
  }

  predicate IsOutOfStock(item: ShopItem) {
    item.quantity == 0
  }

  function LowStockItems(items: seq<ShopItem>): seq<ShopItem> {
    Filter(items, IsLowStock)
  }

  function OutOfStockItems(items: seq<ShopItem>): seq<ShopItem> {
    Filter(items, IsOutOfStock)
  }

  /**
   * Both lists are exactly their rule applied to the inventory; an item out of
   * stock with a non-negative reorder level is low on stock too.
   */
  lemma StockListsFollowTheirRule(items: seq<ShopItem>, item: ShopItem)
    requires item in items
    ensures item in LowStockItems(items) <==> item.quantity <= item.reorderLevel
    ensures item in OutOfStockItems(items) <==> item.quantity == 0
    ensures item in OutOfStockItems(items) && item.reorderLevel >= 0 ==> item in LowStockItems(items)
  {
    var i :| 0 <= i < |items| && items[i] == item;
  }

  /** The stock value: price times quantity, summed. */
  function InventoryValue(items: seq<ShopItem>): real {
    if items == [] then 0.0 else items[0].price * items[0].quantity as real + InventoryValue(items[1..])
  }

  /** The value of a split inventory is the sum of its parts' values; with no negative prices or quantities it is not negative. */
  lemma {:induction false} InventoryValueAdds(a: seq<ShopItem>, b: seq<ShopItem>)
    ensures InventoryValue(a + b) == InventoryValue(a) + InventoryValue(b)
    ensures (forall i :: 0 <= i < |a| ==> a[i].price >= 0.0 && a[i].quantity >= 0) ==> InventoryValue(a) >= 0.0
  {
    if a == [] {
      assert a + b == b;
    } else {
      assert (a + b)[1..] == a[1..] + b;
      InventoryValueAdds(a[1..], b);
      if forall i :: 0 <= i < |a| ==> a[i].price >= 0.0 && a[i].quantity >= 0 {
        assert forall i :: 0 <= i < |a[1..]| ==> a[1..][i] == a[i + 1];
        assert a[0].price * a[0].quantity as real >= 0.0;
      }
    }
  }

  function SalesTotal(sales: seq<Sale>): real {
    if sales == [] then 0.0 else sales[0].total + SalesTotal(sales[1..])
  }

  /** This month's sales: the totals of the sales whose month and year are the current ones. */
  function MonthlySales(sales: seq<Sale>, monthOf: string -> MonthOfYear, now: MonthOfYear): real {
    if sales == [] then 0.0
    else (if monthOf(sales[0].timestamp) == now then sales[0].total else 0.0) + MonthlySales(sales[1..], monthOf, now)
  }

  /**
   * Only sales in the current month and year count: a sale of another month
   * (of this year or another) adds nothing, one of this month adds its total; and
   * with no negative totals the monthly figure is between 0 and all sales.
   */
  lemma {:induction false} MonthlySalesCountThisMonthOnly(sales: seq<Sale>, s: Sale, monthOf: string -> MonthOfYear,
                                                          now: MonthOfYear)
    ensures MonthlySales(sales + [s], monthOf, now)
         == MonthlySales(sales, monthOf, now) + (if monthOf(s.timestamp) == now then s.total else 0.0)
    ensures (forall i :: 0 <= i < |sales| ==> sales[i].total >= 0.0) ==>
      0.0 <= MonthlySales(sales, monthOf, now) <= SalesTotal(sales)
  {
    if sales == [] {
      assert sales + [s] == [s];
      assert [s][1..] == [];
    } else {
      assert (sales + [s])[1..] == sales[1..] + [s];
      MonthlySalesCountThisMonthOnly(sales[1..], s, monthOf, now);
      assert forall i :: 0 <= i < |sales[1..]| ==> sales[1..][i] == sales[i + 1];
    }
  }

  /** A row's margin in percent; 0 for an item with no positive price. */
  function Margin(item: ShopItem): (r: real)
    ensures item.price <= 0.0 ==> r == 0.0
    ensures item.price > 0.0 ==> r * item.price == (item.price - item.cost) * 100.0
  {
    if item.price > 0.0 then (item.price - item.cost) / item.price * 100.0 else 0.0
  }

  /** With a positive price, the margin is at most 100 for a non-negative cost and not negative when cost does not exceed price. */
  lemma MarginBounds(item: ShopItem)
    requires item.price > 0.0
    ensures item.cost >= 0.0 ==> Margin(item) <= 100.0
    ensures item.cost <= item.price ==> Margin(item) >= 0.0
  {
    var m, p, c := Margin(item), item.price, item.cost;
    assert (m - 100.0) * p == -c * 100.0;
    SignFollowsProduct(m - 100.0, p);
    SignFollowsProduct(m, p);
  }

  /** Multiplying by a positive number keeps the sign. */
  lemma SignFollowsProduct(x: real, y: real)
    requires y > 0.0
    ensures x * y <= 0.0 ==> x <= 0.0
    ensures x * y >= 0.0 ==> x >= 0.0
  {
  }

  /** "Agotado". */
  predicate ShowsSoldOut(item: ShopItem) {
    item.quantity == 0
  }

  /** "Stock Bajo". */
  predicate ShowsLowStock(item: ShopItem) {
    item.quantity > 0 && item.quantity <= item.reorderLevel
  }

  /**
   * The two badges never show together; every badged item with a non-negative
   * reorder level is on the low-stock list, and a low-stock item with stock on
   * hand shows the low-stock badge.
   */
  lemma BadgesExclusive(items: seq<ShopItem>, item: ShopItem)
    requires item in items
    ensures !(ShowsSoldOut(item) && ShowsLowStock(item))
    ensures ShowsLowStock(item) ==> item in LowStockItems(items)
    ensures ShowsSoldOut(item) && item.reorderLevel >= 0 ==> item in LowStockItems(items)
    ensures item in LowStockItems(items) && item.quantity > 0 ==> ShowsLowStock(item)
  {
    StockListsFollowTheirRule(items, item);
  }
}
