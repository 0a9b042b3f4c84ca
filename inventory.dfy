/** The inventory screen (components/Inventory.tsx): the search and category
    filter of the item list, the low-stock list behind the alert banner, and
    the three summary figures. */
module InventoryScreen {
  import opened Text
  import opened Lists
  import opened Schema

  /** A row is shown when the search term occurs, ignoring case, in its name
      or SKU, and its category is the selected one or the selection is "all". */
  predicate ItemMatches(i: InventoryRow, searchTerm: string, categoryFilter: string)
  {
    && (MatchesSearch(i.name, searchTerm) || MatchesSearch(i.sku, searchTerm))
    && (categoryFilter == "all" || i.category == categoryFilter)
  }

  function MatchingItem(searchTerm: string, categoryFilter: string): InventoryRow -> bool
  {
    i => ItemMatches(i, searchTerm, categoryFilter)
  }

  /** The rows the list shows. */
  function FilteredInventory(inventory: seq<InventoryRow>, searchTerm: string, categoryFilter: string): (r: seq<InventoryRow>)
    ensures forall k :: 0 <= k < |r| ==> r[k] in inventory && ItemMatches(r[k], searchTerm, categoryFilter)
    ensures forall k :: 0 <= k < |inventory| && ItemMatches(inventory[k], searchTerm, categoryFilter) ==> inventory[k] in r
  {
    Filter(inventory, MatchingItem(searchTerm, categoryFilter))
  }

  /** The shown rows keep the list's order; with no search and "all" every row
      is shown; a category selection shows only rows of exactly that category. */
  lemma FilteredInventoryProperties(inventory: seq<InventoryRow>, searchTerm: string, categoryFilter: string)
    ensures IsSubsequence(FilteredInventory(inventory, searchTerm, categoryFilter), inventory)
    ensures searchTerm == "" && categoryFilter == "all" ==> FilteredInventory(inventory, searchTerm, categoryFilter) == inventory
    ensures categoryFilter != "all" ==>
      forall k :: 0 <= k < |FilteredInventory(inventory, searchTerm, categoryFilter)| ==>
        FilteredInventory(inventory, searchTerm, categoryFilter)[k].category == categoryFilter
  {
    var p := MatchingItem(searchTerm, categoryFilter);
    FilterIsSubsequence(inventory, p);
    if searchTerm == "" && categoryFilter == "all" {
      forall i | i in inventory
        ensures p(i)
      {
        EmptyTermMatches(i.name);
      }
      FilterKeepsAll(inventory, p);
    }
  }

  /** The items whose status is "low-stock" or "out-of-stock", in list order. */
  function LowStockItems(inventory: seq<InventoryRow>): (r: seq<InventoryRow>)
    ensures |r| <= |inventory|
    ensures forall k :: 0 <= k < |r| ==> r[k] in inventory && (r[k].status == LowStock || r[k].status == OutOfStock)
    ensures forall k :: 0 <= k < |inventory| && inventory[k].status != InStock ==> inventory[k] in r
  {
    Filter(inventory, IsLowStock)
  }

  /** The low-stock banner. */
  predicate ShowsLowStockAlert(inventory: seq<InventoryRow>)
    ensures ShowsLowStockAlert(inventory) ==> |inventory| > 0
    ensures (forall k :: 0 <= k < |inventory| ==> inventory[k].status == InStock) ==> !ShowsLowStockAlert(inventory)
  {
    var low := LowStockItems(inventory);
    assert |low| > 0 ==> low[0] in inventory;
    |low| > 0
  }

  /** The banner is shown exactly when some item is low on or out of stock. */
  lemma AlertIffLowStock(inventory: seq<InventoryRow>)
    ensures ShowsLowStockAlert(inventory) <==> exists k :: 0 <= k < |inventory| && IsLowStock(inventory[k])
  {
    if exists k :: 0 <= k < |inventory| && IsLowStock(inventory[k]) {
      var k :| 0 <= k < |inventory| && IsLowStock(inventory[k]);
      assert inventory[k] in LowStockItems(inventory);
    }
    if ShowsLowStockAlert(inventory) {
      var r := LowStockItems(inventory);
      var k :| 0 <= k < |inventory| && inventory[k] == r[0];
    }
  }

  /** The three figures below the list; value in paise. */
  datatype InventorySummary = InventorySummary(totalItems: nat, totalValue: int, lowStock: nat)

  /** Total items, the sum of price times quantity, and the number of
      low-stock items, which never exceeds the total. */
  function Summary(inventory: seq<InventoryRow>): (s: InventorySummary)
    ensures s.totalItems == |inventory|
    ensures s.lowStock == |LowStockItems(inventory)| <= s.totalItems
    ensures s.totalValue == SumOf(inventory, StockValue)
    ensures inventory == [] ==> s == InventorySummary(0, 0, 0)
  {
    InventorySummary(|inventory|, SumOf(inventory, StockValue), |LowStockItems(inventory)|)
  }

  /** The figures do not depend on the order of the rows. */
  lemma SummaryReordered(a: seq<InventoryRow>, b: seq<InventoryRow>)
    requires multiset(a) == multiset(b)
    ensures Summary(a) == Summary(b)
  {
    assert |a| == |multiset(a)| == |multiset(b)| == |b|;
    SumOfPermutation(a, b, StockValue);
    CountPermutation(a, b, IsLowStock);
  }

  /** With non-negative prices and quantities the total value is non-negative. */
  lemma SummaryValueNonNegative(inventory: seq<InventoryRow>)
    requires forall i :: i in inventory ==> i.price >= 0 && i.quantity >= 0
    ensures Summary(inventory).totalValue >= 0
  {
    forall i | i in inventory
      ensures StockValue(i) >= 0
    {
    }
    SumOfNonNegative(inventory, StockValue);
  }
}
