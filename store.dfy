/** The client-side entity store of lib/store.ts: three entity lists and the
    current view. Each action replaces one field with a new value computed from
    the old one: append a row with a generated id, merge changes into the rows
    with a given id, or drop the rows with a given id. The clock reading behind
    the generated ids is a parameter. */
module Store {
  import opened Wrappers
  import opened Lists
  import opened Schema
  import Text

  datatype LineItem = LineItem(id: string, name: string, quantity: int, price: int)

  datatype Order = Order(
    id: string,
    customerName: string,
    orderDate: string,
    status: OrderStatus,
    total: int,
    items: int,
    itemsList: seq<LineItem>)

  datatype InventoryItem = InventoryItem(
    id: string,
    name: string,
    sku: string,
    category: string,
    quantity: int,
    minQuantity: int,
    price: int,
    status: StockStatus)

  datatype Customer = Customer(
    id: string,
    name: string,
    email: string,
    phone: string,
    company: string,
    totalOrders: int,
    totalSpent: int,
    lastOrder: string,
    status: CustomerStatus)

  // A `Partial<...>` update: the fields present in the update object.

  datatype OrderChanges = OrderChanges(
    id: Option<string>,
    customerName: Option<string>,
    orderDate: Option<string>,
    status: Option<OrderStatus>,
    total: Option<int>,
    items: Option<int>,
    itemsList: Option<seq<LineItem>>)

  datatype InventoryChanges = InventoryChanges(
    id: Option<string>,
    name: Option<string>,
    sku: Option<string>,
    category: Option<string>,
    quantity: Option<int>,
    minQuantity: Option<int>,
    price: Option<int>,
    status: Option<StockStatus>)

  datatype CustomerChanges = CustomerChanges(
    id: Option<string>,
    name: Option<string>,
    email: Option<string>,
    phone: Option<string>,
    company: Option<string>,
    totalOrders: Option<int>,
    totalSpent: Option<int>,
    lastOrder: Option<string>,
    status: Option<CustomerStatus>)

  /** One field of `{ ...row, ...updates }`: the update's value when the
      update has the field, the row's value otherwise. */
  predicate Spread<V(==)>(change: Option<V>, before: V, after: V)
  {
    if change.Some? then after == change.value else after == before
  }

  /** `{ ...order, ...updates }`: the fields present in the update win. */
  function MergeOrder(o: Order, u: OrderChanges): (r: Order)
    ensures Spread(u.id, o.id, r.id) && Spread(u.customerName, o.customerName, r.customerName)
    ensures Spread(u.orderDate, o.orderDate, r.orderDate) && Spread(u.status, o.status, r.status)
    ensures Spread(u.total, o.total, r.total) && Spread(u.items, o.items, r.items)
    ensures Spread(u.itemsList, o.itemsList, r.itemsList)
  {
    Order(u.id.GetOr(o.id), u.customerName.GetOr(o.customerName), u.orderDate.GetOr(o.orderDate),
          u.status.GetOr(o.status), u.total.GetOr(o.total), u.items.GetOr(o.items),
          u.itemsList.GetOr(o.itemsList))
  }

  function MergeInventoryItem(i: InventoryItem, u: InventoryChanges): (r: InventoryItem)
    ensures Spread(u.id, i.id, r.id) && Spread(u.name, i.name, r.name)
    ensures Spread(u.sku, i.sku, r.sku) && Spread(u.category, i.category, r.category)
    ensures Spread(u.quantity, i.quantity, r.quantity) && Spread(u.minQuantity, i.minQuantity, r.minQuantity)
    ensures Spread(u.price, i.price, r.price) && Spread(u.status, i.status, r.status)
  {
    InventoryItem(u.id.GetOr(i.id), u.name.GetOr(i.name), u.sku.GetOr(i.sku), u.category.GetOr(i.category),
                  u.quantity.GetOr(i.quantity), u.minQuantity.GetOr(i.minQuantity), u.price.GetOr(i.price),
                  u.status.GetOr(i.status))
  }

  function MergeCustomer(c: Customer, u: CustomerChanges): (r: Customer)
    ensures Spread(u.id, c.id, r.id) && Spread(u.name, c.name, r.name)
    ensures Spread(u.email, c.email, r.email) && Spread(u.phone, c.phone, r.phone)
    ensures Spread(u.company, c.company, r.company) && Spread(u.totalOrders, c.totalOrders, r.totalOrders)
    ensures Spread(u.totalSpent, c.totalSpent, r.totalSpent) && Spread(u.lastOrder, c.lastOrder, r.lastOrder)
    ensures Spread(u.status, c.status, r.status)
  {
    Customer(u.id.GetOr(c.id), u.name.GetOr(c.name), u.email.GetOr(c.email), u.phone.GetOr(c.phone),
             u.company.GetOr(c.company), u.totalOrders.GetOr(c.totalOrders), u.totalSpent.GetOr(c.totalSpent),
             u.lastOrder.GetOr(c.lastOrder), u.status.GetOr(c.status))
  }

  function OrderId(o: Order): string { o.id }
  function InventoryItemId(i: InventoryItem): string { i.id }
  function CustomerId(c: Customer): string { c.id }

  function MergingOrder(u: OrderChanges): Order -> Order { o => MergeOrder(o, u) }
  function MergingInventoryItem(u: InventoryChanges): InventoryItem -> InventoryItem { i => MergeInventoryItem(i, u) }
  function MergingCustomer(u: CustomerChanges): Customer -> Customer { c => MergeCustomer(c, u) }

  /** `${prefix}${Date.now()}`: the prefix followed by the clock reading in decimal. */
  function StampedId(prefix: string, now: nat): (id: string)
    ensures |id| > |prefix|
    ensures id[..|prefix|] == prefix && Text.AllDigits(id[|prefix|..])
    ensures Text.DigitsValue(id[|prefix|..]) == now
  {
    Text.DecimalRoundTrip(now);
    assert (prefix + Text.Decimal(now))[|prefix|..] == Text.Decimal(now);
    prefix + Text.Decimal(now)
  }

  /** The order list after `updateOrder(id, changes)`. */
  function UpdatedOrders(orders: seq<Order>, id: string, u: OrderChanges): seq<Order>
  {
    UpdateWhereKey(orders, OrderId, id, MergingOrder(u))
  }

  function UpdatedInventory(inventory: seq<InventoryItem>, id: string, u: InventoryChanges): seq<InventoryItem>
  {
    UpdateWhereKey(inventory, InventoryItemId, id, MergingInventoryItem(u))
  }

  function UpdatedCustomers(customers: seq<Customer>, id: string, u: CustomerChanges): seq<Customer>
  {
    UpdateWhereKey(customers, CustomerId, id, MergingCustomer(u))
  }

  /** Applying the same order update twice gives what applying it once gives,
      even when the update rewrites the id. */
  lemma UpdatedOrdersIdempotent(orders: seq<Order>, id: string, u: OrderChanges)
    ensures UpdatedOrders(UpdatedOrders(orders, id, u), id, u) == UpdatedOrders(orders, id, u)
  {
    UpdateWhereKeyIdempotent(orders, OrderId, id, MergingOrder(u));
  }

  lemma UpdatedInventoryIdempotent(inventory: seq<InventoryItem>, id: string, u: InventoryChanges)
    ensures UpdatedInventory(UpdatedInventory(inventory, id, u), id, u) == UpdatedInventory(inventory, id, u)
  {
    UpdateWhereKeyIdempotent(inventory, InventoryItemId, id, MergingInventoryItem(u));
  }

  lemma UpdatedCustomersIdempotent(customers: seq<Customer>, id: string, u: CustomerChanges)
    ensures UpdatedCustomers(UpdatedCustomers(customers, id, u), id, u) == UpdatedCustomers(customers, id, u)
  {
    UpdateWhereKeyIdempotent(customers, CustomerId, id, MergingCustomer(u));
  }

  /** An empty update changes nothing. */
  lemma MergeOrderKeepsAbsentFields(o: Order, u: OrderChanges)
    requires u == OrderChanges(None, None, None, None, None, None, None)
    ensures MergeOrder(o, u) == o
  {
  }

  /** The store state and its actions. */
  class ErpStore {
    var orders: seq<Order>
    var inventory: seq<InventoryItem>
    var customers: seq<Customer>
    var currentView: string

    /** The initial state: no rows, the dashboard view. */
    constructor()
      ensures orders == [] && inventory == [] && customers == []
      ensures currentView == "dashboard"
    {
      orders := [];
      inventory := [];
      customers := [];
      currentView := "dashboard";
    }

    /** `addOrder`: the order goes last, under the id "ORD-" + clock reading. */
    method AddOrder(order: Order, now: nat)
      modifies this
      ensures orders == old(orders) + [order.(id := StampedId("ORD-", now))]
      ensures |orders| == |old(orders)| + 1 && orders[|orders| - 1].id == StampedId("ORD-", now)
      ensures inventory == old(inventory) && customers == old(customers) && currentView == old(currentView)
    {
      orders := orders + [order.(id := StampedId("ORD-", now))];
    }

    /** `updateOrder`: every order with the id takes the fields of the update. */
    method UpdateOrder(id: string, changes: OrderChanges)
      modifies this
      ensures orders == UpdatedOrders(old(orders), id, changes)
      ensures |orders| == |old(orders)|
      ensures forall i :: 0 <= i < |orders| && old(orders)[i].id != id ==> orders[i] == old(orders)[i]
      ensures forall i :: 0 <= i < |orders| && old(orders)[i].id == id ==> orders[i] == MergeOrder(old(orders)[i], changes)
      ensures inventory == old(inventory) && customers == old(customers) && currentView == old(currentView)
    {
      UpdateWhereKeyShape(orders, OrderId, id, MergingOrder(changes));
      orders := UpdatedOrders(orders, id, changes);
    }

    /** `deleteOrder`: the orders with the id are dropped, the others keep their order. */
    method DeleteOrder(id: string)
      modifies this
      ensures orders == RemoveKey(old(orders), OrderId, id)
      ensures forall i :: 0 <= i < |orders| ==> orders[i].id != id
      ensures IsSubsequence(orders, old(orders))
      ensures (forall o :: o in old(orders) ==> o.id != id) ==> orders == old(orders)
      ensures inventory == old(inventory) && customers == old(customers) && currentView == old(currentView)
    {
      RemoveKeyProperties(orders, OrderId, id);
      orders := RemoveKey(orders, OrderId, id);
    }

    /** `addInventoryItem`: the item goes last, under the id "INV-" + clock reading. */
    method AddInventoryItem(item: InventoryItem, now: nat)
      modifies this
      ensures inventory == old(inventory) + [item.(id := StampedId("INV-", now))]
      ensures orders == old(orders) && customers == old(customers) && currentView == old(currentView)
    {
      inventory := inventory + [item.(id := StampedId("INV-", now))];
    }

    method UpdateInventoryItem(id: string, changes: InventoryChanges)
      modifies this
      ensures inventory == UpdatedInventory(old(inventory), id, changes)
      ensures |inventory| == |old(inventory)|
      ensures forall i :: 0 <= i < |inventory| && old(inventory)[i].id != id ==> inventory[i] == old(inventory)[i]
      ensures forall i :: 0 <= i < |inventory| && old(inventory)[i].id == id ==>
        inventory[i] == MergeInventoryItem(old(inventory)[i], changes)
      ensures orders == old(orders) && customers == old(customers) && currentView == old(currentView)
    {
      UpdateWhereKeyShape(inventory, InventoryItemId, id, MergingInventoryItem(changes));
      inventory := UpdatedInventory(inventory, id, changes);
    }

    method DeleteInventoryItem(id: string)
      modifies this
      ensures inventory == RemoveKey(old(inventory), InventoryItemId, id)
      ensures forall i :: 0 <= i < |inventory| ==> inventory[i].id != id
      ensures IsSubsequence(inventory, old(inventory))
      ensures (forall x :: x in old(inventory) ==> x.id != id) ==> inventory == old(inventory)
      ensures orders == old(orders) && customers == old(customers) && currentView == old(currentView)
    {
      RemoveKeyProperties(inventory, InventoryItemId, id);
      inventory := RemoveKey(inventory, InventoryItemId, id);
    }

    /** `addCustomer`: the customer goes last, under the id "CUST-" + clock reading. */
    method AddCustomer(customer: Customer, now: nat)
      modifies this
      ensures customers == old(customers) + [customer.(id := StampedId("CUST-", now))]
      ensures orders == old(orders) && inventory == old(inventory) && currentView == old(currentView)
    {
      customers := customers + [customer.(id := StampedId("CUST-", now))];
    }

    method UpdateCustomer(id: string, changes: CustomerChanges)
      modifies this
      ensures customers == UpdatedCustomers(old(customers), id, changes)
      ensures |customers| == |old(customers)|
      ensures forall i :: 0 <= i < |customers| && old(customers)[i].id != id ==> customers[i] == old(customers)[i]
      ensures forall i :: 0 <= i < |customers| && old(customers)[i].id == id ==>
        customers[i] == MergeCustomer(old(customers)[i], changes)
      ensures orders == old(orders) && inventory == old(inventory) && currentView == old(currentView)
    {
      UpdateWhereKeyShape(customers, CustomerId, id, MergingCustomer(changes));
      customers := UpdatedCustomers(customers, id, changes);
    }

    method DeleteCustomer(id: string)
      modifies this
      ensures customers == RemoveKey(old(customers), CustomerId, id)
      ensures forall i :: 0 <= i < |customers| ==> customers[i].id != id
      ensures IsSubsequence(customers, old(customers))
      ensures (forall c :: c in old(customers) ==> c.id != id) ==> customers == old(customers)
      ensures orders == old(orders) && inventory == old(inventory) && currentView == old(currentView)
    {
      RemoveKeyProperties(customers, CustomerId, id);
      customers := RemoveKey(customers, CustomerId, id);
    }

    /** `setCurrentView`: only the view changes. */
    method SetCurrentView(view: string)
      modifies this
      ensures currentView == view
      ensures orders == old(orders) && inventory == old(inventory) && customers == old(customers)
    {
      currentView := view;
    }
  }

  /** Deleting twice is deleting once. */
  lemma RemovedOrdersIdempotent(orders: seq<Order>, id: string)
    ensures RemoveKey(RemoveKey(orders, OrderId, id), OrderId, id) == RemoveKey(orders, OrderId, id)
  {
    RemoveKeyProperties(orders, OrderId, id);
  }

  /** A client session from the initial state: add an order and a customer,
      delete that customer by the id the store gave it, and switch to the
      orders view. Each action touches only its own list. */
  method StoreScenario(o: Order, c: Customer, now: nat)
    returns (orders: seq<Order>, inventory: seq<InventoryItem>, customers: seq<Customer>, view: string)
    ensures orders == [o.(id := StampedId("ORD-", now))]
    ensures inventory == [] && customers == []
    ensures view == "orders"
  {
    var store := new ErpStore();
    store.AddOrder(o, now);
    store.AddCustomer(c, now);
    store.DeleteCustomer(StampedId("CUST-", now));
    store.SetCurrentView("orders");
    orders, inventory, customers, view := store.orders, store.inventory, store.customers, store.currentView;
  }

}
