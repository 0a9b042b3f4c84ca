/** The order screen (components/Orders.tsx): the order-number generator, the
    add-order form whose line items keep a running total, and the search,
    status filter and sort comparator of the order list. The clock and the
    random draw of the generator are parameters. */
module OrderScreen {
  import opened Wrappers
  import opened Text
  import opened Lists
  import opened Schema

  datatype PaymentStatus = PaymentPending | Paid | PaymentFailed

  /** One line of an order; prices in paise. */
  datatype OrderItem = OrderItem(
    id: Option<string>,
    productName: string,
    quantity: int,
    unitPrice: int,
    totalPrice: int)

  /** An order as the screen lists it and as the form edits it. */
  datatype Order = Order(
    id: Option<string>,
    orderNumber: string,
    customerName: string,
    customerEmail: string,
    customerPhone: string,
    items: seq<OrderItem>,
    totalAmount: int,
    status: OrderStatus,
    paymentStatus: PaymentStatus,
    orderDate: string,
    deliveryDate: Option<string>,
    notes: Option<string>,
    createdAt: Option<string>)

  /** The line a new form starts with and "Add Item" appends. */
  function BlankItem(): OrderItem
  {
    OrderItem(None, "", 1, 0, 0)
  }

  function LineTotal(item: OrderItem): int { item.totalPrice }

  /** The line's total is its quantity times its unit price. */
  predicate LineConsistent(item: OrderItem)
  {
    item.totalPrice == item.quantity * item.unitPrice
  }

  /** `items.reduce((sum, item) => sum + item.total_price, 0)` */
  function ItemsTotal(items: seq<OrderItem>): int
  {
    SumOf(items, LineTotal)
  }

  // =====================================================================
  // Order numbers

  /** A day of the month. */
  type Day = d: int | 1 <= d <= 31 witness 1

  /** `Math.floor(Math.random() * 1000)` */
  type Draw = r: int | 0 <= r < 1000

  /** generateOrderNumber: "ORD-", the year, the month and the day padded to two
      digits, "-", and the random draw padded to three digits. */
  function OrderNumber(year: nat, month: Month, day: Day, random: Draw): (n: string)
    ensures |n| > 4 && n[..4] == "ORD-"
  {
    "ORD-" + Decimal(year) + PadStart(Decimal(month), 2, '0') + PadStart(Decimal(day), 2, '0')
      + "-" + PadStart(Decimal(random), 3, '0')
  }

  /** With a four-digit year the number has 16 characters, and its date and
      random parts read back as the values it was made from. */
  lemma OrderNumberLayout(year: nat, month: Month, day: Day, random: Draw)
    requires 1000 <= year <= 9999
    ensures var n := OrderNumber(year, month, day, random);
      && |n| == 16 && n[..4] == "ORD-" && n[12] == '-'
      && AllDigits(n[4..8]) && DigitsValue(n[4..8]) == year
      && AllDigits(n[8..10]) && DigitsValue(n[8..10]) == month
      && AllDigits(n[10..12]) && DigitsValue(n[10..12]) == day
      && AllDigits(n[13..16]) && DigitsValue(n[13..16]) == random
  {
    var y := Decimal(year);
    var m := PadStart(Decimal(month), 2, '0');
    var d := PadStart(Decimal(day), 2, '0');
    var r := PadStart(Decimal(random), 3, '0');
    OrderNumberParts(year, month, day, random);
    NumberSlices(y, m, d, r);
  }

  /** Where each part sits in "ORD-" + y + m + d + "-" + r. */
  lemma NumberSlices(y: string, m: string, d: string, r: string)
    requires |y| == 4 && |m| == 2 && |d| == 2 && |r| == 3
    ensures var n := "ORD-" + y + m + d + "-" + r;
      |n| == 16 && n[..4] == "ORD-" && n[4..8] == y && n[8..10] == m && n[10..12] == d && n[12] == '-' && n[13..16] == r
  {
  }

  /** The four numeric parts of an order number: their lengths, digits and values. */
  lemma OrderNumberParts(year: nat, month: Month, day: Day, random: Draw)
    requires 1000 <= year <= 9999
    ensures var y := Decimal(year); |y| == 4 && AllDigits(y) && DigitsValue(y) == year
    ensures var m := PadStart(Decimal(month), 2, '0'); |m| == 2 && AllDigits(m) && DigitsValue(m) == month
    ensures var d := PadStart(Decimal(day), 2, '0'); |d| == 2 && AllDigits(d) && DigitsValue(d) == day
    ensures var r := PadStart(Decimal(random), 3, '0'); |r| == 3 && AllDigits(r) && DigitsValue(r) == random
  {
    assert Pow10(2) == 100;
    assert Pow10(3) == 1000 && Pow10(4) == 10000;
    DecimalLength(year, 4);
    DecimalRoundTrip(year);
    DecimalAtMost(month, 2);
    DecimalAtMost(day, 2);
    DecimalAtMost(random, 3);
    PaddedDecimalRoundTrip(month, 2);
    PaddedDecimalRoundTrip(day, 2);
    PaddedDecimalRoundTrip(random, 3);
  }

  /** The submitted order: the typed order number when there is one, else a
      generated one; every other field as the form holds it. */
  function SubmittedOrder(form: Order, year: nat, month: Month, day: Day, random: Draw): (r: Order)
    ensures r == form.(orderNumber := r.orderNumber)
    ensures r.orderNumber != ""
    ensures form.orderNumber != "" ==> r.orderNumber == form.orderNumber
    ensures form.orderNumber == "" ==> r.orderNumber == OrderNumber(year, month, day, random)
  {
    var number := if form.orderNumber != "" then form.orderNumber else OrderNumber(year, month, day, random);
    form.(orderNumber := number)
  }

  // =====================================================================
  // The add-order form

  /** The fields of a line that the form's inputs edit. */
  datatype ItemEdit = SetProductName(name: string) | SetQuantity(quantity: int) | SetUnitPrice(unitPrice: int)

  /** One line after an edit: a quantity or price edit also recomputes the line's total. */
  function Edited(item: OrderItem, edit: ItemEdit): (r: OrderItem)
    ensures r.id == item.id
    ensures edit.SetProductName? ==> r == item.(productName := edit.name)
    ensures edit.SetQuantity? ==> r.quantity == edit.quantity && r.unitPrice == item.unitPrice && r.productName == item.productName
    ensures edit.SetUnitPrice? ==> r.unitPrice == edit.unitPrice && r.quantity == item.quantity && r.productName == item.productName
    ensures !edit.SetProductName? ==> LineConsistent(r)
  {
    match edit
    case SetProductName(name) => item.(productName := name)
    case SetQuantity(q) => item.(quantity := q, totalPrice := q * item.unitPrice)
    case SetUnitPrice(p) => item.(unitPrice := p, totalPrice := item.quantity * p)
  }

  /** An edit keeps a consistent line consistent. */
  lemma EditKeepsLineConsistent(item: OrderItem, edit: ItemEdit)
    requires LineConsistent(item)
    ensures LineConsistent(Edited(item, edit))
  {
  }

  /** Appending a blank line does not change the total. */
  lemma BlankItemAddsNothing(items: seq<OrderItem>)
    ensures ItemsTotal(items + [BlankItem()]) == ItemsTotal(items)
  {
    assert (items + [BlankItem()])[..|items|] == items;
  }

  /** Removing a line takes exactly that line's total off the sum. */
  lemma RemovedLineTotal(items: seq<OrderItem>, index: int)
    requires 0 <= index < |items|
    ensures ItemsTotal(RemovePosition(items, index)) == ItemsTotal(items) - items[index].totalPrice
  {
    SumOfRemovePosition(items, index, LineTotal);
  }

  /** The form state of the add-order dialog. */
  class OrderForm {
    var data: Order

    /** The form's running total agrees with its lines. */
    predicate Consistent()
      reads this
    {
      data.totalAmount == ItemsTotal(data.items)
    }

    /** The empty form: one blank line, a zero total, status and payment pending,
        the order date `today`, empty notes. */
    constructor(today: string)
      ensures data == Order(None, "", "", "", "", [BlankItem()], 0, Pending, PaymentPending, today, None, Some(""), None)
      ensures Consistent()
    {
      data := Order(None, "", "", "", "", [BlankItem()], 0, Pending, PaymentPending, today, None, Some(""), None);
      BlankItemAddsNothing([]);
    }

    /** handleAddItem: one blank line at the end; the total stays as it is,
        which is still right because a blank line is worth 0. */
    method AddItem()
      modifies this
      ensures data == old(data).(items := old(data.items) + [BlankItem()])
      ensures old(Consistent()) ==> Consistent()
    {
      BlankItemAddsNothing(data.items);
      data := data.(items := data.items + [BlankItem()]);
    }

    /** handleRemoveItem as written: drops the line at `index` and keeps the
        other lines in order, but does not recompute the total. */
    method RemoveItem(index: int)
      modifies this
      ensures data == old(data).(items := RemovePosition(old(data.items), index))
    {
      data := data.(items := RemovePosition(data.items, index));
    }

    /** handleRemoveItem with the total recomputed as handleItemChange does:
        the total drops by the removed line's total and the form stays consistent. */
    method RemoveItemRetotalled(index: int)
      modifies this
      ensures data.items == RemovePosition(old(data.items), index)
      ensures data == old(data).(items := data.items, totalAmount := data.totalAmount)
      ensures Consistent()
      ensures old(Consistent()) && 0 <= index < |old(data.items)| ==>
        data.totalAmount == old(data.totalAmount) - old(data.items)[index].totalPrice
    {
      var items := RemovePosition(data.items, index);
      if 0 <= index < |data.items| {
        RemovedLineTotal(data.items, index);
      }
      data := data.(items := items, totalAmount := ItemsTotal(items));
    }

    /** handleItemChange: copies the lines, edits the one at `index` in place,
        then sums the line totals into the order total. */
    method ChangeItem(index: int, edit: ItemEdit)
      requires 0 <= index < |data.items|
      modifies this
      ensures data.items == old(data.items)[index := Edited(old(data.items)[index], edit)]
      ensures data == old(data).(items := data.items, totalAmount := data.totalAmount)
      ensures Consistent()
    {
      var newItems := new OrderItem[|data.items|](i requires 0 <= i < |data.items| reads this => data.items[i]);
      newItems[index] := Edited(newItems[index], edit);
      var total := 0;
      var i := 0;
      while i < newItems.Length
        invariant 0 <= i <= newItems.Length
        invariant total == ItemsTotal(newItems[..i])
      {
        assert newItems[..i + 1][..i] == newItems[..i];
        total := total + newItems[i].totalPrice;
        i := i + 1;
      }
      assert newItems[..] == newItems[..newItems.Length];
      data := data.(items := newItems[..], totalAmount := total);
    }
  }

  /** The form as the add-order dialog drives it: price the first line at
      2 x 100 paise, add a second line, then remove the first. `shown` is the
      `total_amount` the form then holds and `lines` what its remaining lines
      add up to: handleRemoveItem leaves the removed line's 200 paise in the
      total. */
  method RemoveItemStaleTotal(today: string) returns (shown: int, lines: int)
    ensures shown == 200 && lines == 0
  {
    var form := new OrderForm(today);
    form.ChangeItem(0, SetQuantity(2));
    form.ChangeItem(0, SetUnitPrice(100));
    form.AddItem();
    form.RemoveItem(0);
    BlankItemAddsNothing([]);
    shown, lines := form.data.totalAmount, ItemsTotal(form.data.items);
  }

  // =====================================================================
  // The order list: search, status filter and sort comparator

  /** A row is shown when the search term occurs, ignoring case, in its order
      number, customer name or customer email, and its status is the selected
      one or the selection is "all". */
  predicate OrderMatches(o: Order, searchTerm: string, statusFilter: string)
  {
    && (MatchesSearch(o.orderNumber, searchTerm)
        || MatchesSearch(o.customerName, searchTerm)
        || MatchesSearch(o.customerEmail, searchTerm))
    && (statusFilter == "all" || OrderStatusName(o.status) == statusFilter)
  }

  function MatchingOrder(searchTerm: string, statusFilter: string): Order -> bool
  {
    o => OrderMatches(o, searchTerm, statusFilter)
  }

  /** The rows the list shows, before sorting. */
  function FilteredOrders(orders: seq<Order>, searchTerm: string, statusFilter: string): (r: seq<Order>)
    ensures forall i :: 0 <= i < |r| ==> r[i] in orders && OrderMatches(r[i], searchTerm, statusFilter)
    ensures forall i :: 0 <= i < |orders| && OrderMatches(orders[i], searchTerm, statusFilter) ==> orders[i] in r
  {
    Filter(orders, MatchingOrder(searchTerm, statusFilter))
  }

  /** The shown rows keep the list's order; with no search and "all" every row
      is shown; a status selection shows only rows of exactly that status; and
      filtering the shown rows again changes nothing. */
  lemma FilteredOrdersProperties(orders: seq<Order>, searchTerm: string, statusFilter: string)
    ensures IsSubsequence(FilteredOrders(orders, searchTerm, statusFilter), orders)
    ensures searchTerm == "" && statusFilter == "all" ==> FilteredOrders(orders, searchTerm, statusFilter) == orders
    ensures statusFilter != "all" ==>
      forall i :: 0 <= i < |FilteredOrders(orders, searchTerm, statusFilter)| ==>
        OrderStatusName(FilteredOrders(orders, searchTerm, statusFilter)[i].status) == statusFilter
    ensures FilteredOrders(FilteredOrders(orders, searchTerm, statusFilter), searchTerm, statusFilter)
      == FilteredOrders(orders, searchTerm, statusFilter)
  {
    var p := MatchingOrder(searchTerm, statusFilter);
    FilterIsSubsequence(orders, p);
    FilterIdempotent(orders, p);
    if searchTerm == "" && statusFilter == "all" {
      forall o | o in orders
        ensures p(o)
      {
        EmptyTermMatches(o.orderNumber);
      }
      FilterKeepsAll(orders, p);
    }
  }

  /** The fields the list can be sorted by. */
  datatype SortField = OrderDateField | TotalAmountField | CustomerNameField | DeliveryDateField | NotesField | CreatedAtField

  /** A field's value as the comparator sees it; a missing optional field is undefined. */
  datatype SortKey = TextKey(text: string) | AmountKey(amount: int)

  function KeyOf(o: Order, field: SortField): (k: Option<SortKey>)
    ensures field in {OrderDateField, TotalAmountField, CustomerNameField} ==> k.Some?
    ensures k.Some? ==> (k.value.AmountKey? <==> field == TotalAmountField)
    ensures field == DeliveryDateField ==> (k.None? <==> o.deliveryDate.None?)
    ensures field == NotesField ==> (k.None? <==> o.notes.None?)
    ensures field == CreatedAtField ==> (k.None? <==> o.createdAt.None?)
  {
    match field
    case OrderDateField => Some(TextKey(o.orderDate))
    case TotalAmountField => Some(AmountKey(o.totalAmount))
    case CustomerNameField => Some(TextKey(o.customerName))
    case DeliveryDateField => if o.deliveryDate.Some? then Some(TextKey(o.deliveryDate.value)) else None
    case NotesField => if o.notes.Some? then Some(TextKey(o.notes.value)) else None
    case CreatedAtField => if o.createdAt.Some? then Some(TextKey(o.createdAt.value)) else None
  }

  predicate SameKind(a: SortKey, b: SortKey)
  {
    a.TextKey? == b.TextKey?
  }

  /** Two rows' keys for one field are always of the same kind. */
  lemma KeysOfOneFieldAgree(x: Order, y: Order, field: SortField)
    requires KeyOf(x, field).Some? && KeyOf(y, field).Some?
    ensures SameKind(KeyOf(x, field).value, KeyOf(y, field).value)
  {
  }

  /** JavaScript's `a > b`: UTF-16 code-unit order on text, numeric order on amounts. */
  predicate Greater(a: SortKey, b: SortKey)
    ensures Greater(a, b) ==> SameKind(a, b) && a != b
  {
    match (a, b)
    case (TextKey(s), TextKey(t)) => StringLessIrreflexive(s); StringLess(t, s)
    case (AmountKey(m), AmountKey(n)) => m > n
    case _ => false
  }

  /** The list's sort comparator: two undefined keys tie, an undefined key goes
      after a defined one in either direction, and defined keys give 1 or -1
      by the chosen direction, never 0. */
  function Compare(a: Option<SortKey>, b: Option<SortKey>, ascending: bool): (r: int)
    ensures -1 <= r <= 1
    ensures r == 0 <==> a.None? && b.None?
    ensures a.None? && b.Some? ==> r == 1
    ensures a.Some? && b.None? ==> r == -1
    ensures a.Some? && b.Some? && ascending ==> (r == 1 <==> Greater(a.value, b.value))
    ensures a.Some? && b.Some? && !ascending ==> (r == 1 <==> Greater(b.value, a.value))
  {
    if a.None? && b.None? then 0
    else if a.None? then 1
    else if b.None? then -1
    else if ascending then (if Greater(a.value, b.value) then 1 else -1)
    else (if Greater(b.value, a.value) then 1 else -1)
  }

  /** The comparator applied to two rows. */
  function CompareOrders(x: Order, y: Order, field: SortField, ascending: bool): int
  {
    Compare(KeyOf(x, field), KeyOf(y, field), ascending)
  }

  /** The default order of the list: by order date, newest first. */
  const DefaultSortField := OrderDateField
  const DefaultAscending := false

  /** With the default sort (order date, descending) an order goes after
      another exactly when its date is the earlier string: newest first. */
  lemma DefaultOrderNewestFirst(x: Order, y: Order)
    ensures CompareOrders(x, y, DefaultSortField, DefaultAscending) == 1 <==> StringLess(x.orderDate, y.orderDate)
    ensures CompareOrders(x, y, DefaultSortField, DefaultAscending) != 0
  {
  }

  /** Text keys compare by UTF-16 code units: sorting customer names
      ascending puts "\U{FF21}" after "\U{1F600}", whose first unit 0xD83D is
      the smaller, although its code point is the larger. */
  lemma CustomerNamesByCodeUnits(ascending: bool)
    ensures Compare(Some(TextKey("\U{FF21}")), Some(TextKey("\U{1F600}")), ascending) == if ascending then 1 else -1
  {
    SupplementaryBeforeHighBmp();
  }

  /** A defined key compared with itself gives -1 in either direction, so the
      comparator does not report ties between equal keys. */
  lemma CompareEqualKeys(a: SortKey, ascending: bool)
    ensures Compare(Some(a), Some(a), ascending) == -1
  {
    if a.TextKey? {
      StringLessIrreflexive(a.text);
    }
  }

  lemma {:induction false} GreaterTrichotomy(a: SortKey, b: SortKey)
    requires SameKind(a, b) && a != b
    ensures Greater(a, b) != Greater(b, a)
  {
    if a.TextKey? {
      StringLessTrichotomy(a.text, b.text);
    }
  }

  /** On two different keys of one kind the comparator is antisymmetric, and
      the descending order is the ascending one reversed. */
  lemma CompareDistinctKeys(a: SortKey, b: SortKey, ascending: bool)
    requires SameKind(a, b) && a != b
    ensures Compare(Some(a), Some(b), ascending) == -Compare(Some(b), Some(a), ascending)
    ensures Compare(Some(a), Some(b), false) == Compare(Some(b), Some(a), true)
  {
    GreaterTrichotomy(a, b);
  }

  /** The comparator is transitive on defined keys of one kind. */
  lemma CompareTransitive(a: SortKey, b: SortKey, c: SortKey, ascending: bool)
    requires SameKind(a, b) && SameKind(b, c)
    requires Compare(Some(a), Some(b), ascending) == 1 && Compare(Some(b), Some(c), ascending) == 1
    ensures Compare(Some(a), Some(c), ascending) == 1
  {
    if a.TextKey? {
      if ascending {
        StringLessTransitive(c.text, b.text, a.text);
      } else {
        StringLessTransitive(a.text, b.text, c.text);
      }
    }
  }
}
