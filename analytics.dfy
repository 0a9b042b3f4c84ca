/** The dashboard analytics of lib/database.ts: `getDashboardStats` reduces the
    customer and inventory rows to six figures, and `getSalesData` groups the
    orders of the current year by month. The store reads are inputs: each is
    the rows it returned or the error it reported. */
module Analytics {
  import opened Wrappers
  import opened Lists
  import opened Schema

  datatype ReadError = ReadError(message: string)

  // =====================================================================
  // getDashboardStats

  datatype DashboardStats = DashboardStats(
    totalRevenue: int,          // paise
    totalOrders: int,
    activeCustomers: nat,
    inventoryItems: nat,
    lowStockItems: nat,
    totalInventoryValue: int)   // paise

  /** The six reductions over the fetched rows. */
  function Summarize(customers: seq<CustomerRow>, inventory: seq<InventoryRow>): (s: DashboardStats)
    ensures s.activeCustomers <= |customers|
    ensures s.lowStockItems <= s.inventoryItems == |inventory|
  {
    DashboardStats(
      SumOf(customers, SpentOf),
      SumOf(customers, OrdersOf),
      Count(customers, HasOrders),
      |inventory|,
      Count(inventory, IsLowStock),
      SumOf(inventory, StockValue))
  }

  /** The three reads run in turn (customers, orders, inventory); the first one
      that fails aborts the computation with its error. The order rows are
      read but not used. */
  function GetDashboardStats(
    customers: Result<seq<CustomerRow>, ReadError>,
    orders: Result<seq<OrderRow>, ReadError>,
    inventory: Result<seq<InventoryRow>, ReadError>): (r: Result<DashboardStats, ReadError>)
    ensures r.Success? <==> customers.Success? && orders.Success? && inventory.Success?
    ensures customers.Failure? ==> r == Failure(customers.error)
    ensures customers.Success? && orders.Failure? ==> r == Failure(orders.error)
    ensures customers.Success? && orders.Success? && inventory.Failure? ==> r == Failure(inventory.error)
    ensures r.Success? ==> r.value == Summarize(customers.value, inventory.value)
  {
    match customers
    case Failure(e) => Failure(e)
    case Success(cs) =>
      match orders
      case Failure(e) => Failure(e)
      case Success(_) =>
        match inventory
        case Failure(e) => Failure(e)
        case Success(inv) => Success(Summarize(cs, inv))
  }

  /** `totalOrders` adds up the customers' order counters: which order rows the
      store returned makes no difference to the statistics. */
  lemma StatsIgnoreOrderRows(
    customers: Result<seq<CustomerRow>, ReadError>,
    orders1: seq<OrderRow>, orders2: seq<OrderRow>,
    inventory: Result<seq<InventoryRow>, ReadError>)
    ensures GetDashboardStats(customers, Success(orders1), inventory)
         == GetDashboardStats(customers, Success(orders2), inventory)
  {
  }

  /** With no customers and no inventory every figure is 0. */
  lemma SummarizeNothing()
    ensures Summarize([], []) == DashboardStats(0, 0, 0, 0, 0, 0)
  {
  }

  /** None of the figures depends on the order in which the rows arrive. */
  lemma SummarizeReordered(
    customers: seq<CustomerRow>, customers': seq<CustomerRow>,
    inventory: seq<InventoryRow>, inventory': seq<InventoryRow>)
    requires multiset(customers) == multiset(customers')
    requires multiset(inventory) == multiset(inventory')
    ensures Summarize(customers, inventory) == Summarize(customers', inventory')
  {
    SumOfPermutation(customers, customers', SpentOf);
    SumOfPermutation(customers, customers', OrdersOf);
    CountPermutation(customers, customers', HasOrders);
    CountPermutation(inventory, inventory', IsLowStock);
    SumOfPermutation(inventory, inventory', StockValue);
    assert |inventory| == |multiset(inventory)| == |inventory'|;
  }

  /** One more customer adds its spending and its counter to the totals, and
      counts as active exactly when its counter is positive. */
  lemma SummarizeAddCustomer(customers: seq<CustomerRow>, c: CustomerRow, inventory: seq<InventoryRow>)
    ensures var before, after := Summarize(customers, inventory), Summarize(customers + [c], inventory);
      && after.totalRevenue == before.totalRevenue + SpentOf(c)
      && after.totalOrders == before.totalOrders + OrdersOf(c)
      && after.activeCustomers == before.activeCustomers + (if HasOrders(c) then 1 else 0)
  {
    assert (customers + [c])[..|customers|] == customers;
    CountSnoc(customers, c, HasOrders);
  }

  /** Revenue and inventory value are never negative when no row holds a negative amount. */
  lemma SummarizeNonNegative(customers: seq<CustomerRow>, inventory: seq<InventoryRow>)
    requires forall c :: c in customers ==> SpentOf(c) >= 0
    requires forall i :: i in inventory ==> i.quantity >= 0 && i.price >= 0
    ensures Summarize(customers, inventory).totalRevenue >= 0
    ensures Summarize(customers, inventory).totalInventoryValue >= 0
  {
    SumOfNonNegative(customers, SpentOf);
    SumOfNonNegative(inventory, StockValue);
  }

  // =====================================================================
  // getSalesData

  /** The bucket key of an order: the short name of its month. */
  function MonthKey(o: OrderRow): string
  {
    MonthLabel(o.orderDate.month)
  }

  /** One accumulator entry `{ sales, orders }`. */
  datatype Tally = Tally(sales: int, orders: int)

  /** One output element `{ month, sales, orders }`; `sales` is in whole rupees. */
  datatype MonthBucket = MonthBucket(month: string, sales: int, orders: int)

  function Total(o: OrderRow): int { o.total }

  function One(o: OrderRow): int { 1 }

  /** The month keys in the order the rows first use them. */
  function FirstSeenKeys(rows: seq<OrderRow>): (keys: seq<string>)
    ensures forall i, j :: 0 <= i < j < |keys| ==> keys[i] != keys[j]
  {
    if rows == [] then []
    else
      var keys := FirstSeenKeys(rows[..|rows| - 1]);
      var k := MonthKey(rows[|rows| - 1]);
      if k in keys then keys else keys + [k]
  }

  /** The sum of `f` over the rows whose month key is `k`. */
  function KeySum(rows: seq<OrderRow>, k: string, f: OrderRow -> int): int
  {
    if rows == [] then 0
    else KeySum(rows[..|rows| - 1], k, f) + (if MonthKey(rows[|rows| - 1]) == k then f(rows[|rows| - 1]) else 0)
  }

  /** Math.round of an amount in paise, in whole rupees: the nearest whole
      number, halves rounded up. */
  function RoundToUnit(paise: int): (r: int)
    ensures 100 * r - 50 <= paise < 100 * r + 50
  {
    (paise + 50) / 100
  }

  /** The output element for key `k`. */
  function Bucket(rows: seq<OrderRow>, k: string): MonthBucket
  {
    MonthBucket(k, RoundToUnit(KeySum(rows, k, Total)), KeySum(rows, k, One))
  }

  function BucketsFor(rows: seq<OrderRow>, keys: seq<string>): seq<MonthBucket>
  {
    seq(|keys|, i requires 0 <= i < |keys| => Bucket(rows, keys[i]))
  }

  /** What getSalesData returns for the rows the store read: one bucket per
      month key, in order of first use. */
  function SalesBuckets(rows: seq<OrderRow>): (buckets: seq<MonthBucket>)
    ensures |buckets| <= 12
    ensures forall i, j :: 0 <= i < j < |buckets| ==> buckets[i].month != buckets[j].month
  {
    FirstSeenKeysAreMonthNames(rows);
    DistinctWithin(FirstSeenKeys(rows), MonthLabels());
    BucketsFor(rows, FirstSeenKeys(rows))
  }

  /** Groups the rows in an accumulator keyed by month name, as the `reduce`
      does, then lists the entries in insertion order, as `Object.entries`
      does for keys that are not array indices. */
  method GetSalesData(read: Result<seq<OrderRow>, ReadError>) returns (r: Result<seq<MonthBucket>, ReadError>)
    ensures read.Failure? ==> r == Failure(read.error)
    ensures read.Success? ==> r == Success(SalesBuckets(read.value))
  {
    if read.Failure? {
      return Failure(read.error);
    }
    var acc, keys := GroupByMonth(read.value);
    EmitBucketsMatches(read.value);
    return Success(EmitBuckets(acc, keys));
  }

  /** The `reduce` of getSalesData: one pass that creates the entry of a month
      the first time the month is met and adds each row's total and a count
      of one to its month's entry. `keys` records the order in which entries
      were created. */
  method GroupByMonth(rows: seq<OrderRow>) returns (acc: map<string, Tally>, keys: seq<string>)
    ensures acc == Tallies(rows) && keys == FirstSeenKeys(rows)
  {
    acc, keys := map[], [];
    var i := 0;
    while i < |rows|
      invariant 0 <= i <= |rows|
      invariant keys == FirstSeenKeys(rows[..i])
      invariant acc == Tallies(rows[..i])
    {
      SalesStep(rows, i);
      AddRowInPlace(acc, rows[i]);
      var month := MonthKey(rows[i]);
      if month !in acc {
        acc := acc[month := Tally(0, 0)];
        keys := keys + [month];
      }
      acc := acc[month := Tally(acc[month].sales + rows[i].total, acc[month].orders + 1)];
      i := i + 1;
    }
    assert rows[..i] == rows;
  }

  /** The accumulator the `reduce` builds: for each month key met so far, the
      running sales total and order count. */
  function Tallies(rows: seq<OrderRow>): map<string, Tally>
  {
    if rows == [] then map[] else AddRow(Tallies(rows[..|rows| - 1]), rows[|rows| - 1])
  }

  /** One turn of the `reduce`: the entry of the row's month, created empty if
      missing, gains the row's total and one order; no other entry changes. */
  function AddRow(acc: map<string, Tally>, x: OrderRow): map<string, Tally>
  {
    var month := MonthKey(x);
    var tally := if month in acc then acc[month] else Tally(0, 0);
    acc[month := Tally(tally.sales + x.total, tally.orders + 1)]
  }

  /** The effect of one turn on the accumulator, entry by entry: the row's
      month gains an entry if it had none, that entry gains the row's total
      and one order, and every other entry is left alone. */
  lemma AddRowEffect(acc: map<string, Tally>, x: OrderRow)
    ensures AddRow(acc, x).Keys == acc.Keys + {MonthKey(x)}
    ensures forall k :: k in acc && k != MonthKey(x) ==> AddRow(acc, x)[k] == acc[k]
    ensures MonthKey(x) !in acc ==> AddRow(acc, x)[MonthKey(x)] == Tally(x.total, 1)
    ensures MonthKey(x) in acc ==> AddRow(acc, x)[MonthKey(x)] == Tally(acc[MonthKey(x)].sales + x.total, acc[MonthKey(x)].orders + 1)
  {
  }

  /** Creating the missing entry first and then adding to it, as the source
      does, gives the same accumulator. */
  lemma AddRowInPlace(acc: map<string, Tally>, x: OrderRow)
    ensures var m := MonthKey(x);
      var created := if m in acc then acc else acc[m := Tally(0, 0)];
      created[m := Tally(created[m].sales + x.total, created[m].orders + 1)] == AddRow(acc, x)
  {
  }

  /** The key order after one more row: its month is appended when new. */
  function AddKey(keys: seq<string>, x: OrderRow): seq<string>
  {
    if MonthKey(x) in keys then keys else keys + [MonthKey(x)]
  }

  /** Folding in row `i`: its month has an accumulator entry exactly when it
      is a listed key, and the accumulator and the key order each take one
      step. */
  lemma SalesStep(rows: seq<OrderRow>, i: nat)
    requires i < |rows|
    ensures MonthKey(rows[i]) in Tallies(rows[..i]) <==> MonthKey(rows[i]) in FirstSeenKeys(rows[..i])
    ensures Tallies(rows[..i + 1]) == AddRow(Tallies(rows[..i]), rows[i])
    ensures FirstSeenKeys(rows[..i + 1]) == AddKey(FirstSeenKeys(rows[..i]), rows[i])
  {
    TalliesDomain(rows[..i]);
    assert rows[..i + 1][..i] == rows[..i];
  }

  /** The accumulator has an entry for exactly the keys met so far. */
  lemma {:induction false} TalliesDomain(rows: seq<OrderRow>)
    ensures forall k :: k in Tallies(rows) <==> k in FirstSeenKeys(rows)
  {
    if rows != [] {
      TalliesDomain(rows[..|rows| - 1]);
    }
  }

  /** Each entry of the accumulator holds the sales total and the number of
      the rows of its month. */
  lemma {:induction false} TalliesMeaning(rows: seq<OrderRow>)
    ensures forall k :: k in Tallies(rows) ==> Tallies(rows)[k] == Tally(KeySum(rows, k, Total), KeySum(rows, k, One))
  {
    if rows != [] {
      var init := rows[..|rows| - 1];
      TalliesMeaning(init);
      TalliesDomain(init);
      var month := MonthKey(rows[|rows| - 1]);
      if month !in Tallies(init) {
        KeySumUnseen(init, month, Total);
        KeySumUnseen(init, month, One);
      }
    }
  }

  /** `Object.entries(acc).map(...)`: the entries in key order, sales rounded. */
  function EmitBuckets(acc: map<string, Tally>, keys: seq<string>): (buckets: seq<MonthBucket>)
    requires forall k :: k in keys ==> k in acc
    ensures |buckets| == |keys|
    ensures forall j :: 0 <= j < |keys| ==> buckets[j].month == keys[j] && buckets[j].orders == acc[keys[j]].orders
  {
    seq(|keys|, j requires 0 <= j < |keys| => MonthBucket(keys[j], RoundToUnit(acc[keys[j]].sales), acc[keys[j]].orders))
  }

  /** Listing the final accumulator gives the specified buckets. */
  lemma EmitBucketsMatches(rows: seq<OrderRow>)
    ensures forall k :: k in FirstSeenKeys(rows) ==> k in Tallies(rows)
    ensures EmitBuckets(Tallies(rows), FirstSeenKeys(rows)) == SalesBuckets(rows)
  {
    TalliesDomain(rows);
    TalliesMeaning(rows);
  }

  // ---------------------------------------------------------------------
  // Properties of the month buckets

  /** A key the rows never use has an empty sum. */
  lemma {:induction false} KeySumUnseen(rows: seq<OrderRow>, k: string, f: OrderRow -> int)
    requires k !in FirstSeenKeys(rows)
    ensures KeySum(rows, k, f) == 0
  {
    if rows != [] {
      KeySumUnseen(rows[..|rows| - 1], k, f);
    }
  }

  /** A key is listed exactly when some row is dated in that month. */
  lemma FirstSeenKeysComplete(rows: seq<OrderRow>, k: string)
    ensures k in FirstSeenKeys(rows) <==> exists p :: 0 <= p < |rows| && MonthKey(rows[p]) == k
  {
    if k in FirstSeenKeys(rows) {
      ListedKeyHasRow(rows, k);
    }
    if exists p :: 0 <= p < |rows| && MonthKey(rows[p]) == k {
      var p :| 0 <= p < |rows| && MonthKey(rows[p]) == k;
      RowKeyIsListed(rows, p);
    }
  }

  lemma {:induction false} ListedKeyHasRow(rows: seq<OrderRow>, k: string)
    requires k in FirstSeenKeys(rows)
    ensures exists p :: 0 <= p < |rows| && MonthKey(rows[p]) == k
  {
    var init := rows[..|rows| - 1];
    if k in FirstSeenKeys(init) {
      ListedKeyHasRow(init, k);
      var p :| 0 <= p < |init| && MonthKey(init[p]) == k;
      assert rows[p] == init[p];
    } else {
      assert MonthKey(rows[|rows| - 1]) == k;
    }
  }

  lemma {:induction false} RowKeyIsListed(rows: seq<OrderRow>, p: nat)
    requires p < |rows|
    ensures MonthKey(rows[p]) in FirstSeenKeys(rows)
  {
    var init := rows[..|rows| - 1];
    if p < |init| {
      RowKeyIsListed(init, p);
      assert init[p] == rows[p];
    }
  }

  /** Each listed key has at least one row behind it. */
  lemma {:induction false} KeySumOnePositive(rows: seq<OrderRow>, k: string)
    requires k in FirstSeenKeys(rows)
    ensures KeySum(rows, k, One) >= 1
  {
    var init := rows[..|rows| - 1];
    if k in FirstSeenKeys(init) {
      KeySumOnePositive(init, k);
    } else {
      KeySumUnseen(init, k, One);
    }
  }

  /** Summing per-key sums over a list of distinct keys. */
  function KeyedTotal(rows: seq<OrderRow>, keys: seq<string>, f: OrderRow -> int): int
  {
    if keys == [] then 0
    else KeyedTotal(rows, keys[..|keys| - 1], f) + KeySum(rows, keys[|keys| - 1], f)
  }

  /** One more row adds its value to the keyed total exactly once when its key is listed. */
  lemma {:induction false} KeyedTotalSnoc(rows: seq<OrderRow>, x: OrderRow, keys: seq<string>, f: OrderRow -> int)
    requires forall i, j :: 0 <= i < j < |keys| ==> keys[i] != keys[j]
    ensures KeyedTotal(rows + [x], keys, f) == KeyedTotal(rows, keys, f) + (if MonthKey(x) in keys then f(x) else 0)
  {
    assert (rows + [x])[..|rows|] == rows;
    if keys != [] {
      var init := keys[..|keys| - 1];
      KeyedTotalSnoc(rows, x, init, f);
      assert MonthKey(x) in keys <==> MonthKey(x) in init || MonthKey(x) == keys[|keys| - 1];
    }
  }

  /** Every row lands in exactly one bucket: the per-month sums add up to the
      sum over all rows. */
  lemma {:induction false} KeyedTotalConserves(rows: seq<OrderRow>, f: OrderRow -> int)
    ensures KeyedTotal(rows, FirstSeenKeys(rows), f) == SumOf(rows, f)
  {
    if rows != [] {
      var init := rows[..|rows| - 1];
      var x := rows[|rows| - 1];
      var keys := FirstSeenKeys(init);
      var k := MonthKey(x);
      assert rows == init + [x];
      KeyedTotalConserves(init, f);
      KeyedTotalSnoc(init, x, keys, f);
      if k !in keys {
        KeySumUnseen(init, k, f);
        assert (keys + [k])[..|keys|] == keys;
        assert KeySum(rows, k, f) == f(x);
      }
    }
  }

  lemma {:induction false} BucketOrdersTotal(rows: seq<OrderRow>, keys: seq<string>)
    ensures SumOf(BucketsFor(rows, keys), BucketOrders) == KeyedTotal(rows, keys, One)
  {
    if keys != [] {
      var init := keys[..|keys| - 1];
      BucketOrdersTotal(rows, init);
      assert BucketsFor(rows, keys)[..|keys| - 1] == BucketsFor(rows, init);
    }
  }

  function BucketOrders(b: MonthBucket): int { b.orders }

  lemma {:induction false} SumOfOne(rows: seq<OrderRow>)
    ensures SumOf(rows, One) == |rows|
  {
    if rows != [] {
      SumOfOne(rows[..|rows| - 1]);
    }
  }

  /** The order counts of all buckets add up to the number of order rows. */
  lemma SalesBucketsCountEveryOrder(rows: seq<OrderRow>)
    ensures SumOf(SalesBuckets(rows), BucketOrders) == |rows|
  {
    BucketOrdersTotal(rows, FirstSeenKeys(rows));
    KeyedTotalConserves(rows, One);
    SumOfOne(rows);
  }

  /** Before rounding, the bucket sums add up to the sum of all order totals. */
  lemma SalesBucketsConserveSales(rows: seq<OrderRow>)
    ensures KeyedTotal(rows, FirstSeenKeys(rows), Total) == SumOf(rows, Total)
  {
    KeyedTotalConserves(rows, Total);
  }

  /** Distinct elements of a set of twelve are at most twelve. */
  lemma {:induction false} DistinctWithin(keys: seq<string>, universe: set<string>)
    requires forall i, j :: 0 <= i < j < |keys| ==> keys[i] != keys[j]
    requires forall k :: k in keys ==> k in universe
    ensures |keys| <= |universe|
  {
    if keys != [] {
      var last := keys[|keys| - 1];
      var init := keys[..|keys| - 1];
      assert last !in init;
      DistinctWithin(init, universe - {last});
    }
  }

  /** Every key is a month name. */
  lemma {:induction false} FirstSeenKeysAreMonthNames(rows: seq<OrderRow>)
    ensures forall k :: k in FirstSeenKeys(rows) ==> k in MonthLabels()
  {
    if rows != [] {
      FirstSeenKeysAreMonthNames(rows[..|rows| - 1]);
      var m := rows[|rows| - 1].orderDate.month;
      MonthLabelIsMonthName(m, m);
    }
  }

  /** Each bucket is labelled with a distinct month name, holds the rows of that
      month (at least one), carries their rounded sales, and there are at most
      twelve buckets. */
  lemma SalesBucketsShape(rows: seq<OrderRow>)
    ensures |SalesBuckets(rows)| <= 12
    ensures forall i, j :: 0 <= i < j < |SalesBuckets(rows)| ==> SalesBuckets(rows)[i].month != SalesBuckets(rows)[j].month
    ensures forall b :: b in SalesBuckets(rows) ==>
      && b.month in MonthLabels()
      && b.orders == KeySum(rows, b.month, One) >= 1
      && b.sales == RoundToUnit(KeySum(rows, b.month, Total))
    ensures forall p :: 0 <= p < |rows| ==> exists b :: b in SalesBuckets(rows) && b.month == MonthKey(rows[p])
  {
    var keys := FirstSeenKeys(rows);
    FirstSeenKeysAreMonthNames(rows);
    DistinctWithin(keys, MonthLabels());
    forall b | b in SalesBuckets(rows)
      ensures b.orders == KeySum(rows, b.month, One) >= 1
    {
      KeySumOnePositive(rows, b.month);
    }
    forall p | 0 <= p < |rows|
      ensures exists b :: b in SalesBuckets(rows) && b.month == MonthKey(rows[p])
    {
      FirstSeenKeysComplete(rows, MonthKey(rows[p]));
      var i :| 0 <= i < |keys| && keys[i] == MonthKey(rows[p]);
      assert SalesBuckets(rows)[i].month == MonthKey(rows[p]);
    }
  }

  // ---------------------------------------------------------------------
  // Order of the buckets

  /** The position of the first row with key `k`, or the length when there is none. */
  function FirstIndex(rows: seq<OrderRow>, k: string): (p: nat)
    ensures p <= |rows|
    ensures p < |rows| ==> MonthKey(rows[p]) == k
    ensures forall q :: 0 <= q < p ==> MonthKey(rows[q]) != k
  {
    if rows == [] then 0
    else if MonthKey(rows[0]) == k then 0
    else
      var rest := rows[1..];
      var p := FirstIndex(rest, k);
      assert forall q :: 0 <= q < |rest| ==> rest[q] == rows[q + 1];
      1 + p
  }

  lemma {:induction false} FirstIndexSnoc(rows: seq<OrderRow>, x: OrderRow, k: string)
    ensures FirstIndex(rows + [x], k) ==
      if FirstIndex(rows, k) < |rows| then FirstIndex(rows, k)
      else if MonthKey(x) == k then |rows| else |rows| + 1
  {
    if rows != [] {
      FirstIndexSnoc(rows[1..], x, k);
      assert (rows + [x])[1..] == rows[1..] + [x];
    }
  }

  /** The buckets come in the order in which their months first occur among
      the rows: for the date-ascending rows the store returns, chronological
      order of first occurrence. */
  lemma {:induction false} SalesBucketsInFirstOccurrenceOrder(rows: seq<OrderRow>)
    ensures forall i :: 0 <= i < |FirstSeenKeys(rows)| ==> FirstIndex(rows, FirstSeenKeys(rows)[i]) < |rows|
    ensures forall i, j :: 0 <= i < j < |FirstSeenKeys(rows)| ==>
      FirstIndex(rows, FirstSeenKeys(rows)[i]) < FirstIndex(rows, FirstSeenKeys(rows)[j])
  {
    if rows != [] {
      var init := rows[..|rows| - 1];
      var x := rows[|rows| - 1];
      assert rows == init + [x];
      SalesBucketsInFirstOccurrenceOrder(init);
      var keys := FirstSeenKeys(init);
      assert init == rows[..|rows| - 1];
      var all := FirstSeenKeys(rows);
      assert all == AddKey(keys, x);
      forall i | 0 <= i < |keys|
        ensures FirstIndex(rows, all[i]) == FirstIndex(init, keys[i]) < |init|
      {
        FirstIndexOfListedKey(init, x, all[i]);
      }
      if MonthKey(x) !in keys {
        FirstIndexOfListedKey(init, x, MonthKey(x));
        assert FirstIndex(rows, all[|keys|]) == |init|;
      }
    }
  }

  /** A key listed after one more row first occurs where it did before, or at
      the new row when it is new. */
  lemma FirstIndexOfListedKey(init: seq<OrderRow>, x: OrderRow, k: string)
    requires k in FirstSeenKeys(init + [x])
    ensures FirstIndex(init + [x], k) == if k in FirstSeenKeys(init) then FirstIndex(init, k) else |init|
  {
    FirstIndexSnoc(init, x, k);
    assert (init + [x])[..|init|] == init;
    FirstSeenKeysComplete(init, k);
  }

  // ---------------------------------------------------------------------
  // Worked examples

  /** Two customers, one with three orders worth 150 rupees and one with none. */
  lemma SummarizeExample(c1: CustomerRow, c2: CustomerRow)
    requires c1.totalOrders == Some(3) && c1.totalSpent == Some(15000)
    requires c2.totalOrders == Some(0) && c2.totalSpent == Some(0)
    ensures var s := Summarize([c1, c2], []);
      s.activeCustomers == 1 && s.totalRevenue == 15000 && s.totalOrders == 3
  {
    assert [c1, c2][..1] == [c1];
    assert [c1][..0] == [];
    assert SumOf([c1], SpentOf) == 15000 && SumOf([c1], OrdersOf) == 3;
    assert Filter([c1], HasOrders) == [c1];
    assert Filter([c1, c2], HasOrders) == [c1];
  }

  /** Three orders, two in January (100 and 50 rupees) and one in February
      (30 rupees), give a January bucket of 150 rupees over two orders
      followed by a February bucket of 30 rupees over one order. */
  lemma SalesBucketsExample(o1: OrderRow, o2: OrderRow, o3: OrderRow)
    requires o1.orderDate.month == 1 && o1.total == 10000
    requires o2.orderDate.month == 1 && o2.total == 5000
    requires o3.orderDate.month == 2 && o3.total == 3000
    ensures SalesBuckets([o1, o2, o3]) == [MonthBucket("Jan", 150, 2), MonthBucket("Feb", 30, 1)]
  {
    var rows := [o1, o2, o3];
    assert rows[..2] == [o1, o2] && [o1, o2][..1] == [o1] && [o1][..0] == [];
    assert MonthKey(o1) == "Jan" && MonthKey(o2) == "Jan" && MonthKey(o3) == "Feb";
    assert "Jan" != "Feb" by { assert "Jan"[0] != "Feb"[0]; }
    assert FirstSeenKeys([o1]) == ["Jan"];
    assert FirstSeenKeys([o1, o2]) == ["Jan"];
    assert FirstSeenKeys(rows) == ["Jan", "Feb"];
    assert KeySum([o1], "Jan", Total) == 10000 && KeySum([o1], "Jan", One) == 1;
    assert KeySum([o1, o2], "Jan", Total) == 15000 && KeySum([o1, o2], "Jan", One) == 2;
    assert KeySum(rows, "Jan", Total) == 15000 && KeySum(rows, "Jan", One) == 2;
    assert KeySum([o1], "Feb", Total) == 0 && KeySum([o1], "Feb", One) == 0;
    assert KeySum([o1, o2], "Feb", Total) == 0 && KeySum([o1, o2], "Feb", One) == 0;
    assert KeySum(rows, "Feb", Total) == 3000 && KeySum(rows, "Feb", One) == 1;
  }
}
