/**
 * The `inventory_check_stock` tool of backend/src/tools/inventory/check-stock.ts:
 * it turns the inventory's stock answer into what the assistant tells the
 * customer. JavaScript's text of a price is the oracle `showPrice`.
 */
module CheckStockTool {
  import opened Wrappers
  import opened Text
  import opened BackendTypes
  import opened Inventory

  datatype StockOutput = StockOutput(available: bool, quantity: int, price: Option<real>, message: string,
                                     sizes: Option<seq<string>>, colors: Option<seq<string>>)

  /** A filter is given when it is present and not empty (JavaScript truthiness). */
  predicate Given(filter: Option<string>) {
    !Wildcard(filter)
  }

  const Apology: string := "Sorry, "
  const UnknownOpening: string := "we don't have \""
  const UnknownClosing: string := "\" in our inventory. Would you like to hear about similar items?"
  const OutOfStockClosing: string := " is currently out of stock."
  const InSize: string := " in size "
  const AndColor: string := " and color "
  const InStockOpening: string := "Yes, we have "
  const PriceOpening: string := " available for $"

  function UnknownItemMessage(itemName: string): string {
    Apology + (UnknownOpening + itemName + UnknownClosing)
  }

  /** The out-of-stock message names the size and colour only when both are given. */
  function OutOfStockMessage(itemName: string, size: Option<string>, color: Option<string>): string {
    if Given(size) && Given(color) then
      Apology + (itemName + InSize + size.value + AndColor + color.value + OutOfStockClosing)
    else Apology + (itemName + OutOfStockClosing)
  }

  /** The phrase naming the filters: both, the size alone, the colour alone, or nothing. */
  function SizeColorInfo(size: Option<string>, color: Option<string>): string {
    if Given(size) && Given(color) then InSize + size.value + AndColor + color.value
    else if Given(size) then InSize + size.value
    else if Given(color) then " in " + color.value
    else ""
  }

  function InStockMessage(quantity: int, itemName: string, size: Option<string>, color: Option<string>,
                          price: string): string
  {
    InStockOpening + (IntToString(quantity) + " " + itemName + SizeColorInfo(size, color) + PriceOpening + price + ".")
  }

  lemma Prefixed(prefix: string, rest: string)
    ensures StartsWith(prefix + rest, prefix)
  {
    assert (prefix + rest)[..|prefix|] == prefix;
  }

  function CheckStock(items: seq<InventoryItem>, itemName: string, size: Option<string>, color: Option<string>,
                      rule: MatchRule, showPrice: real -> string): StockOutput
  {
    var result := Inventory.CheckStock(items, itemName, size, color, rule);
    if result.item.None? then StockOutput(false, 0, None, UnknownItemMessage(itemName), None, None)
    else
      var item := result.item.value;
      if !result.available then
        StockOutput(false, 0, Some(item.price), OutOfStockMessage(itemName, size, color), Some(item.sizes), Some(item.colors))
      else
        StockOutput(true, result.quantity, Some(item.price),
                    InStockMessage(result.quantity, itemName, size, color, showPrice(item.price)),
                    Some(item.sizes), Some(item.colors))
  }

  /**
   * What the customer is told, against the inventory: an unknown item is
   * unavailable with no price, sizes or colours; a known one always carries the
   * item's price, sizes and colours; the answer is available exactly when the
   * inventory has stock for the question, and then reports the inventory's
   * positive quantity with a "Yes, we have" message; otherwise the quantity is 0
   * and the message is an apology.
   */
  lemma ToolAgreesWithInventory(items: seq<InventoryItem>, itemName: string, size: Option<string>,
                                color: Option<string>, rule: MatchRule, showPrice: real -> string)
    ensures var o := CheckStock(items, itemName, size, color, rule, showPrice);
      var found := FirstNamed(items, itemName);
      && (found.None? ==> !o.available && o.quantity == 0 && o.price.None? && o.sizes.None? && o.colors.None?)
      && (found.Some? ==> o.price == Some(found.value.price) && o.sizes == Some(found.value.sizes)
                          && o.colors == Some(found.value.colors))
    ensures var o := CheckStock(items, itemName, size, color, rule, showPrice);
      var answer := Inventory.CheckStock(items, itemName, size, color, rule);
      && (o.available <==> answer.available)
      && (o.available ==> o.quantity == answer.quantity > 0 && StartsWith(o.message, InStockOpening))
      && (!o.available ==> o.quantity == 0 && StartsWith(o.message, Apology))
  {
    var answer := Inventory.CheckStock(items, itemName, size, color, rule);
    if answer.item.None? {
      Prefixed(Apology, UnknownOpening + itemName + UnknownClosing);
    } else if !answer.available {
      if Given(size) && Given(color) {
        Prefixed(Apology, itemName + InSize + size.value + AndColor + color.value + OutOfStockClosing);
      } else {
        Prefixed(Apology, itemName + OutOfStockClosing);
      }
    } else {
      Prefixed(InStockOpening, IntToString(answer.quantity) + " " + itemName + SizeColorInfo(size, color) + PriceOpening
        + showPrice(answer.item.value.price) + ".");
    }
  }

  /**
   * Through the tool, the as-written lookup tells a customer asking for an A2 gi
   * that gis are out of stock while three blue A2 gis are on the shelf; summing
   * the matches tells the customer about them.
   */
  lemma AsWrittenToolTurnsCustomerAway(showPrice: real -> string)
    ensures var gi := InventoryItem("gi-1", "Gi", "gi", ["A2"], ["White", "Blue"],
                                    [StockVariant("A2", "White", 0), StockVariant("A2", "Blue", 3)], 120.0, None, None);
      && CheckStock([gi], "Gi", Some("A2"), None, FirstMatch, showPrice).message == OutOfStockMessage("Gi", Some("A2"), None)
      && CheckStock([gi], "Gi", Some("A2"), None, SumOfMatches, showPrice).message
           == InStockMessage(3, "Gi", Some("A2"), None, showPrice(120.0))
  {
    AsWrittenHidesStockOfOtherColors();
  }
}
