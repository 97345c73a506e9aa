/**
 * The Pro Shop inventory of backend/src/services/inventory.service.ts: stock
 * lookups by item name with optional size and colour filters, the low-stock
 * report, and the stock update of one (size, colour) variant, clamped at zero.
 * The `inventory` collection is the `items` field of `InventoryStore`, in the
 * order the store returns it.
 */
module Inventory {
  import opened Wrappers
  import opened Seqs
  import opened BackendTypes

  /** `stock.reduce((sum, s) => sum + s.quantity, 0)`. */
  function TotalStock(stock: seq<StockVariant>): int {
    if stock == [] then 0 else stock[0].quantity + TotalStock(stock[1..])
  }

  /** An absent or empty filter matches every variant. */
  predicate Wildcard(filter: Option<string>) {
    filter.None? || filter.value == ""
  }

  predicate Matches(v: StockVariant, size: Option<string>, color: Option<string>) {
    (Wildcard(size) || v.size == size.value) && (Wildcard(color) || v.color == color.value)
  }

  function MatchingVariants(stock: seq<StockVariant>, size: Option<string>, color: Option<string>): seq<StockVariant> {
    Filter(stock, v => Matches(v, size, color))
  }

  /** `stock.find(...)` as an index: the first matching variant, or -1. */
  function FirstMatching(stock: seq<StockVariant>, size: Option<string>, color: Option<string>): (k: int)
    ensures -1 <= k < |stock|
    ensures k >= 0 ==> Matches(stock[k], size, color)
    ensures forall j :: 0 <= j < |stock| && (k == -1 || j < k) ==> !Matches(stock[j], size, color)
  {
    if stock == [] then -1
    else if Matches(stock[0], size, color) then 0
    else var k := FirstMatching(stock[1..], size, color); if k == -1 then -1 else k + 1
  }

  /** `where('name', '==', itemName).limit(1)`: the first item of that name. */
  function FirstNamed(items: seq<InventoryItem>, name: string): (r: Option<InventoryItem>)
    ensures r.None? <==> forall i :: 0 <= i < |items| ==> items[i].name != name
    ensures r.Some? ==> r.value in items && r.value.name == name
    ensures r.Some? ==> exists k :: 0 <= k < |items| && items[k] == r.value && forall j :: 0 <= j < k ==> items[j].name != name
  {
    if items == [] then None
    else if items[0].name == name then Some(items[0])
    else
      var r := FirstNamed(items[1..], name);
      if r.Some? then
        var k :| 0 <= k < |items[1..]| && items[1..][k] == r.value && forall j :: 0 <= j < k ==> items[1..][j].name != name;
        assert items[k + 1] == r.value;
        r
      else r
  }

  /**
   * How a filtered lookup reads the variants. `FirstMatch` is the code's
   * `stock.find`: only the first matching variant counts. `SumOfMatches` adds up
   * every matching variant, as the unfiltered lookup adds up all of them.
   */
  datatype MatchRule = FirstMatch | SumOfMatches

  datatype StockAnswer = StockAnswer(available: bool, quantity: int, item: Option<InventoryItem>)

  /**
   * `checkStock`. An unknown name answers nothing; otherwise the item found is
   * the first of that name, a positive quantity is what `available` means, and
   * the quantity is read from variants that match the filters.
   */
  function CheckStock(items: seq<InventoryItem>, itemName: string, size: Option<string>, color: Option<string>,
                      rule: MatchRule): (r: StockAnswer)
    ensures r.item == FirstNamed(items, itemName)
    ensures r.available <==> r.quantity > 0
    ensures r.item.None? ==> r.quantity == 0
    ensures r.item.Some? && Wildcard(size) && Wildcard(color) ==> r.quantity == TotalStock(r.item.value.stock)
    ensures r.item.Some? && rule == FirstMatch && !(Wildcard(size) && Wildcard(color)) && r.quantity != 0 ==>
      exists v :: v in r.item.value.stock && Matches(v, size, color) && v.quantity == r.quantity
    ensures r.item.Some? && rule == FirstMatch && !(Wildcard(size) && Wildcard(color)) ==>
      (forall v :: v in r.item.value.stock ==> !Matches(v, size, color)) ==> r.quantity == 0
    ensures r.item.Some? && rule == FirstMatch && !(Wildcard(size) && Wildcard(color)) ==>
      var k := FirstMatching(r.item.value.stock, size, color);
      r.quantity == (if k == -1 then 0 else r.item.value.stock[k].quantity)
  {
    var found := FirstNamed(items, itemName);
    if found.None? then StockAnswer(false, 0, None)
    else
      var item := found.value;
      if Wildcard(size) && Wildcard(color) then
        var total := TotalStock(item.stock);
        StockAnswer(total > 0, total, Some(item))
      else
        match rule
        case FirstMatch =>
          var k := FirstMatching(item.stock, size, color);
          if k == -1 then StockAnswer(false, 0, Some(item))
          else StockAnswer(item.stock[k].quantity > 0, item.stock[k].quantity, Some(item))
        case SumOfMatches =>
          var total := TotalStock(MatchingVariants(item.stock, size, color));
          StockAnswer(total > 0, total, Some(item))
  }

  predicate NonNegative(stock: seq<StockVariant>) {
    forall i :: 0 <= i < |stock| ==> stock[i].quantity >= 0
  }

  /** A sum of quantities none of which is negative is positive exactly when one of them is. */
  lemma {:induction false} PositiveTotal(stock: seq<StockVariant>)
    requires NonNegative(stock)
    ensures TotalStock(stock) >= 0
    ensures TotalStock(stock) > 0 <==> exists i :: 0 <= i < |stock| && stock[i].quantity > 0
  {
    if stock != [] {
      PositiveTotal(stock[1..]);
      if TotalStock(stock[1..]) > 0 {
        var i :| 0 <= i < |stock[1..]| && stock[1..][i].quantity > 0;
        assert stock[i + 1].quantity > 0;
      }
      forall i | 1 <= i < |stock| && stock[i].quantity > 0
        ensures TotalStock(stock[1..]) > 0
      {
        assert stock[1..][i - 1].quantity > 0;
      }
    }
  }

  lemma {:induction false} FilterAllMatching(stock: seq<StockVariant>, size: Option<string>, color: Option<string>)
    requires Wildcard(size) && Wildcard(color)
    ensures MatchingVariants(stock, size, color) == stock
  {
    if stock != [] {
      FilterAllMatching(stock[1..], size, color);
    }
  }

  /**
   * Summing the matches, a filtered lookup is available exactly when some
   * matching variant is in stock (quantities being non-negative, as updates keep
   * them), and the unfiltered lookup is the special case where every variant
   * matches.
   */
  lemma SumOfMatchesReportsAnyStock(items: seq<InventoryItem>, itemName: string, size: Option<string>,
                                    color: Option<string>)
    ensures var r := CheckStock(items, itemName, size, color, SumOfMatches);
      r.item.Some? ==> r.quantity == TotalStock(MatchingVariants(r.item.value.stock, size, color))
    ensures var r := CheckStock(items, itemName, size, color, SumOfMatches);
      r.item.Some? && NonNegative(r.item.value.stock) ==>
        (r.available <==> exists v :: v in r.item.value.stock && Matches(v, size, color) && v.quantity > 0)
  {
    var r := CheckStock(items, itemName, size, color, SumOfMatches);
    if r.item.Some? {
      var stock := r.item.value.stock;
      var m := MatchingVariants(stock, size, color);
      if Wildcard(size) && Wildcard(color) {
        FilterAllMatching(stock, size, color);
      }
      if NonNegative(stock) {
        assert NonNegative(m);
        PositiveTotal(m);
        if r.available {
          var i :| 0 <= i < |m| && m[i].quantity > 0;
          assert m[i] in stock && Matches(m[i], size, color);
        }
        forall v | v in stock && Matches(v, size, color) && v.quantity > 0
          ensures r.available
        {
          var j :| 0 <= j < |stock| && stock[j] == v;
          var i :| 0 <= i < |m| && m[i] == v;
        }
      }
    }
  }

  /**
   * As written, a size-only question reads the first variant of that size: a
   * white A2 gi out of stock hides the blue A2 gis on the shelf, while summing the
   * matches reports them.
   */
  lemma AsWrittenHidesStockOfOtherColors()
    ensures var gi := InventoryItem("gi-1", "Gi", "gi", ["A2"], ["White", "Blue"],
                                    [StockVariant("A2", "White", 0), StockVariant("A2", "Blue", 3)], 120.0, None, None);
      && !CheckStock([gi], "Gi", Some("A2"), None, FirstMatch).available
      && CheckStock([gi], "Gi", Some("A2"), None, SumOfMatches) == StockAnswer(true, 3, Some(gi))
  {
    var gi := InventoryItem("gi-1", "Gi", "gi", ["A2"], ["White", "Blue"],
                            [StockVariant("A2", "White", 0), StockVariant("A2", "Blue", 3)], 120.0, None, None);
    assert FirstMatching(gi.stock, Some("A2"), None) == 0;
    var m := MatchingVariants(gi.stock, Some("A2"), None);
    assert gi.stock[1..][1..] == [];
    assert m == gi.stock;
  }

  // ---- getLowStockItems ----

  /** `item.lowStockThreshold || 5`: an absent threshold, and also a threshold of 0, mean 5. */
  function LowThreshold(item: InventoryItem): int {
    if item.lowStockThreshold.Some? && item.lowStockThreshold.value != 0 then item.lowStockThreshold.value else 5
  }

  predicate IsLowStock(item: InventoryItem) {
    TotalStock(item.stock) <= LowThreshold(item)
  }

  // ---- updateStock ----

  /** `findIndex` of the variant with exactly this size and colour (no wildcards here), or -1. */
  function VariantIndex(stock: seq<StockVariant>, size: string, color: string): (k: int)
    ensures -1 <= k < |stock|
    ensures k >= 0 ==> stock[k].size == size && stock[k].color == color
    ensures forall j :: 0 <= j < |stock| && (k == -1 || j < k) ==> !(stock[j].size == size && stock[j].color == color)
  {
    if stock == [] then -1
    else if stock[0].size == size && stock[0].color == color then 0
    else var k := VariantIndex(stock[1..], size, color); if k == -1 then -1 else k + 1
  }

  function IndexOfItem(items: seq<InventoryItem>, id: string): (k: int)
    ensures -1 <= k < |items|
    ensures k >= 0 ==> items[k].id == id
    ensures k == -1 ==> forall j :: 0 <= j < |items| ==> items[j].id != id
  {
    FirstWhere(items, (item: InventoryItem) => item.id == id)
  }

  /** The quantity after adding `change`, a negative result becoming 0. */
  function Clamped(quantity: int, change: int): (q: int)
    ensures q >= 0
    ensures q == quantity + change || (q == 0 && quantity + change < 0)
  {
    if quantity + change < 0 then 0 else quantity + change
  }

  /** Replacing one variant changes the total by the difference of the two quantities. */
  lemma {:induction false} TotalAfterReplace(stock: seq<StockVariant>, k: int, v: StockVariant)
    requires 0 <= k < |stock|
    ensures TotalStock(stock[k := v]) == TotalStock(stock) - stock[k].quantity + v.quantity
  {
    if k == 0 {
      assert stock[k := v][1..] == stock[1..];
    } else {
      assert stock[k := v][1..] == stock[1..][k - 1 := v];
      TotalAfterReplace(stock[1..], k - 1, v);
    }
  }

  class InventoryStore {
    var items: seq<InventoryItem>

    constructor (items: seq<InventoryItem>)
      ensures this.items == items
    {
      this.items := items;
    }

    /** `getLowStockItems`: the items whose total stock is at most their threshold, in store order. */
    method LowStockItems() returns (low: seq<InventoryItem>)
      ensures low == Filter(items, IsLowStock)
    {
      low := [];
      var i := 0;
      while i < |items|
        invariant 0 <= i <= |items|
        invariant low == Filter(items[..i], IsLowStock)
      {
        assert items[..i + 1] == items[..i] + [items[i]];
        FilterSnoc(items[..i], items[i], IsLowStock);
        if TotalStock(items[i].stock) <= LowThreshold(items[i]) {
          low := low + [items[i]];
        }
        i := i + 1;
      }
      assert items[..i] == items;
    }

    /**
     * `updateStock`: fails with "Item not found" or "Stock variant not found",
     * changing nothing; otherwise only the (size, colour) variant of that item
     * changes, to its quantity plus the change, clamped at zero. A Firestore
     * `update` that throws (`written` is false) fails and changes nothing.
     */
    method UpdateStock(itemId: string, size: string, color: string, change: int, written: bool) returns (r: Result<()>)
      modifies this
      ensures var i := IndexOfItem(old(items), itemId);
        i == -1 ==> r == Err("Item not found") && items == old(items)
      ensures var i := IndexOfItem(old(items), itemId);
        i >= 0 && VariantIndex(old(items)[i].stock, size, color) == -1 ==>
          r == Err("Stock variant not found") && items == old(items)
      ensures var i := IndexOfItem(old(items), itemId);
        i >= 0 && VariantIndex(old(items)[i].stock, size, color) >= 0 && !written ==>
          r.Err? && items == old(items)
      ensures var i := IndexOfItem(old(items), itemId);
        i >= 0 && VariantIndex(old(items)[i].stock, size, color) >= 0 && written ==>
          var item := old(items)[i];
          var k := VariantIndex(item.stock, size, color);
          && r.Ok?
          && items == old(items)[i := item.(stock := item.stock[k := item.stock[k].(quantity := Clamped(item.stock[k].quantity, change))])]
    {
      var i := IndexOfItem(items, itemId);
      if i == -1 {
        return Err("Item not found");
      }
      var item := items[i];
      var k := VariantIndex(item.stock, size, color);
      if k == -1 {
        return Err("Stock variant not found");
      }
      var variant := item.stock[k].(quantity := item.stock[k].quantity + change);
      if variant.quantity < 0 {
        variant := variant.(quantity := 0);
      }
      if !written {
        return Err("write failed");
      }
      items := items[i := item.(stock := item.stock[k := variant])];
      r := Ok(());
    }
  }

  /** The item's stock after the update of variant `k`. */
  function Adjusted(item: InventoryItem, k: int, change: int): InventoryItem
    requires 0 <= k < |item.stock|
  {
    item.(stock := item.stock[k := item.stock[k].(quantity := Clamped(item.stock[k].quantity, change))])
  }

  /**
   * An update moves the item's total by the change, except that the variant
   * cannot go below zero; it keeps every quantity non-negative; and a sale (a
   * negative change) never takes an item off the low-stock report.
   */
  lemma AdjustedTotals(item: InventoryItem, k: int, change: int)
    requires 0 <= k < |item.stock|
    ensures var after := Adjusted(item, k, change);
      TotalStock(after.stock) == TotalStock(item.stock) - item.stock[k].quantity + Clamped(item.stock[k].quantity, change)
    ensures item.stock[k].quantity + change >= 0 ==>
      TotalStock(Adjusted(item, k, change).stock) == TotalStock(item.stock) + change
    ensures NonNegative(item.stock) ==> NonNegative(Adjusted(item, k, change).stock)
    ensures item.stock[k].quantity >= 0 && change <= 0 && IsLowStock(item) ==> IsLowStock(Adjusted(item, k, change))
  {
    var v := item.stock[k].(quantity := Clamped(item.stock[k].quantity, change));
    TotalAfterReplace(item.stock, k, v);
  }
}
