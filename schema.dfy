/** The rows of the hosted tables `customers`, `inventory` and `orders` as the
    application reads them (lib/supabase.ts), their closed status sets, and the
    per-row quantities that the dashboard and the list screens add up.
    Amounts of money are integers counted in paise (hundredths of a rupee);
    `created_at` and `updated_at` are not read by any modelled code and are
    left out of the rows. */
module Schema {
  import opened Wrappers

  datatype CustomerStatus = Active | Inactive | Vip

  /** The status as the string stored in the table. */
  function CustomerStatusName(s: CustomerStatus): string
  {
    match s
    case Active => "active"
    case Inactive => "inactive"
    case Vip => "vip"
  }

  datatype StockStatus = InStock | LowStock | OutOfStock

  function StockStatusName(s: StockStatus): string
  {
    match s
    case InStock => "in-stock"
    case LowStock => "low-stock"
    case OutOfStock => "out-of-stock"
  }

  datatype OrderStatus = Pending | Processing | Shipped | Delivered | Cancelled

  function OrderStatusName(s: OrderStatus): string
  {
    match s
    case Pending => "pending"
    case Processing => "processing"
    case Shipped => "shipped"
    case Delivered => "delivered"
    case Cancelled => "cancelled"
  }

  /** A calendar month, January = 1. */
  type Month = m: int | 1 <= m <= 12 witness 1

  /** The short English month name (`toLocaleDateString('en-US', {month: 'short'})`). */
  function MonthLabel(m: Month): string
  {
    match m
    case 1 => "Jan" case 2 => "Feb" case 3 => "Mar" case 4 => "Apr"
    case 5 => "May" case 6 => "Jun" case 7 => "Jul" case 8 => "Aug"
    case 9 => "Sep" case 10 => "Oct" case 11 => "Nov" case _ => "Dec"
  }

  /** The twelve short month names. */
  function MonthLabels(): (names: set<string>)
    ensures |names| == 12
  {
    {"Jan", "Feb", "Mar", "Apr", "May", "Jun", "Jul", "Aug", "Sep", "Oct", "Nov", "Dec"}
  }

  /** Every month is labelled with one of the twelve names, and different
      months with different names. */
  lemma MonthLabelIsMonthName(m: Month, n: Month)
    ensures MonthLabel(m) in MonthLabels()
    ensures m != n ==> MonthLabel(m) != MonthLabel(n)
  {
  }

  /** A calendar date, as `order_date` denotes it in the local time zone. */
  datatype Date = Date(year: int, month: Month, day: int)

  datatype CustomerRow = CustomerRow(
    id: string,
    name: string,
    email: string,
    phone: string,
    company: string,
    totalOrders: Option<int>,   // the denormalised order counter; None for a NULL column
    totalSpent: Option<int>,    // paise; None for a NULL column
    lastOrder: Option<string>,
    status: CustomerStatus)

  datatype InventoryRow = InventoryRow(
    id: string,
    name: string,
    sku: string,
    category: string,
    quantity: int,
    minQuantity: int,
    price: int,                 // paise per unit
    status: StockStatus)

  datatype OrderRow = OrderRow(
    id: string,
    customerId: string,
    customerName: string,
    orderDate: Date,
    status: OrderStatus,
    total: int,                 // paise
    itemsCount: int)

  /** `v || 0` on a numeric column: a NULL counts as 0. */
  function OrZero(v: Option<int>): int
  {
    v.GetOr(0)
  }

  /** What the customer has spent, NULL counted as 0. */
  function SpentOf(c: CustomerRow): int
  {
    OrZero(c.totalSpent)
  }

  /** The customer's order counter, NULL counted as 0. */
  function OrdersOf(c: CustomerRow): int
  {
    OrZero(c.totalOrders)
  }

  /** `c.total_orders > 0`; a NULL counter is not greater than 0. */
  predicate HasOrders(c: CustomerRow)
  {
    c.totalOrders.Some? && c.totalOrders.value > 0
  }

  /** The status test shared by the dashboard and the inventory screen. */
  predicate IsLowStock(i: InventoryRow)
  {
    i.status == LowStock || i.status == OutOfStock
  }

  /** The value of the stock held of one item, quantity times unit price. */
  function StockValue(i: InventoryRow): int
  {
    i.quantity * i.price
  }
}
