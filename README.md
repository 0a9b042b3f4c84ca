# Ordering dashboard: verified model of its list logic

This project is a Dafny model of the in-memory logic of a small ordering and
back-office dashboard. The application's screens are views over hosted tables
(customers, inventory, orders). Besides reading and writing those tables, the
application does the following, and the model covers all of it:

- **Dashboard analytics** (`lib/database.ts`):
  - `getDashboardStats` reduces the customer and inventory rows to six figures;
  - `getSalesData` groups the current year's orders into month buckets.
- **Chat fallback** (`app/api/chat/route.ts`): a keyword router picks one of
  seven canned answers. The request handler chooses between the model's answer
  and a canned answer with or without a note.
- **Client-side entity store** (`lib/store.ts`): three entity lists plus the
  current view. Its actions are add, update, delete and set-view.
- **Order screen** (`components/Orders.tsx`):
  - the order-number generator;
  - the add-order form, whose line items keep a running total;
  - the list's search, status filter and sort comparator.
- **Customer and inventory screens** (`components/Customers.tsx`,
  `components/Inventory.tsx`): list filters, the low-stock list behind the alert
  banner, and the summary figures.

Modules:

| file | module | models |
|---|---|---|
| wrappers.dfy | `Wrappers` | `Option` for `null`/`undefined` fields, `Result` for a thrown read error |
| text.dfy | `Text` | `toLowerCase` (ASCII), `includes`, `String(n)`, `padStart`, JavaScript's `<` on strings (by UTF-16 code unit) |
| lists.dfy | `Lists` | `filter`, `reduce` to a sum, `map` over the rows with a given id, `filter` by position |
| schema.dfy | `Schema` | the table rows, the status sets, the month labels, the per-row quantities |
| analytics.dfy | `Analytics` | `getDashboardStats`, `getSalesData` |
| chat.dfy | `ChatFallback` | `getFallbackResponse`, the fallback branches of `POST` |
| store.dfy | `Store` | `useERPStore` as the class `ErpStore` |
| orders.dfy | `OrderScreen` | `Orders.tsx`; its form state is the class `OrderForm` |
| customers.dfy | `CustomerScreen` | `Customers.tsx` |
| inventory.dfy | `InventoryScreen` | `Inventory.tsx` |

Modelling choices:

- **Money.** Amounts are `int` counts of paise (hundredths of a rupee).
  `Math.round` of a rupee amount becomes `RoundToUnit`, which rounds halves up,
  as `Math.round` does.
- **Nullable columns.** A nullable numeric column is an `Option<int>`; a NULL
  counts as 0. The dashboard does this with `|| 0`, and the customer screen's
  `sum + c.total_spent` does it implicitly, because JavaScript turns `null`
  into 0 there.
- **Store reads.** Each read is an input: either the rows it returned, or the
  error it reported.
- **Clock and randomness.** The clock reading behind generated ids, the date
  parts, and the random draw of `generateOrderNumber` are parameters.
- **Month key.** An order's date is given already split into calendar parts.
  Its month key is the English short month name.
- **`getSalesData` accumulator.** The `reduce` works on a mutable dictionary.
  The model is a loop (`GroupByMonth`) that updates a `map` and a sequence of
  keys in insertion order. `Object.entries` lists non-numeric keys in that
  order.
- **Store state.** `ErpStore` is a class with `seq` fields. Each action assigns
  one field.
- **Order form.** `OrderForm` holds the form data. `ChangeItem` copies the
  lines into an array, edits one element in place, and sums the lines in a loop.

## Model

| member | source | states |
|---|---|---|
| `Analytics.Summarize` | lib/database.ts:273-278 | Active customers never outnumber the customer rows; the inventory item count equals the number of rows; low-stock items never exceed it |
| `Analytics.GetDashboardStats` | lib/database.ts:254-287 | Succeeds iff all three reads succeed; otherwise returns the first read's error, in the order customers, orders, inventory; on success yields the six reductions |
| `Analytics.StatsIgnoreOrderRows` | lib/database.ts:261-278 | The stats do not depend on which order rows were read: `totalOrders` adds up the customers' counters |
| `Analytics.SummarizeNothing` | lib/database.ts:273-278 | No customers and no inventory give all six figures 0 |
| `Analytics.SummarizeReordered` | lib/database.ts:273-278 | Every figure is invariant under reordering the customer rows and the inventory rows |
| `Analytics.SummarizeAddCustomer` | lib/database.ts:273-275 | One more customer adds its spending (NULL as 0) and its counter to the totals, and adds 1 to active customers iff its counter is positive |
| `Analytics.SummarizeNonNegative` | lib/database.ts:273-278 | Revenue and inventory value are non-negative when no row holds a negative amount |
| `Analytics.SummarizeExample` | lib/database.ts:273-275 | Customers with (3 orders, 150 rupees) and (0, 0) give 1 active customer, revenue 150 rupees and 3 orders |
| `Analytics.RoundToUnit` | lib/database.ts:312 | The result in rupees is the nearest whole rupee: within half a rupee, halves rounded up |
| `Analytics.FirstSeenKeys` | lib/database.ts:302-304 | The listed month keys are pairwise distinct |
| `Analytics.GetSalesData` | lib/database.ts:290-315 | A failed read returns its error; otherwise returns the specified buckets `SalesBuckets` |
| `Analytics.AddRowEffect` | lib/database.ts:300-308 | One `reduce` turn (`AddRow`): the row's month gains an entry if it had none; that entry gains the row's total and one order; every other entry is unchanged |
| `Analytics.EmitBuckets` | lib/database.ts:310-314 | `Object.entries(acc).map(...)` gives one bucket per listed key, in key order, labelled with that key and carrying its entry's order count |
| `Analytics.SalesBuckets` | lib/database.ts:300-314 | At most twelve buckets, with pairwise distinct month names |
| `Analytics.GroupByMonth` | lib/database.ts:300-308 | The loop builds exactly the accumulator `Tallies(rows)` and lists its keys in first-use order |
| `Analytics.AddRowInPlace` | lib/database.ts:302-306 | Creating the missing entry and then adding to it equals one accumulator step |
| `Analytics.SalesStep` | lib/database.ts:300-308 | Folding in one row: the row's month has an entry iff it is already listed; the accumulator and the key order each take one step |
| `Analytics.TalliesDomain` | lib/database.ts:302-304 | The accumulator has an entry for exactly the listed keys |
| `Analytics.TalliesMeaning` | lib/database.ts:300-308 | Each entry of the accumulator `Tallies` holds its month's sales sum and its month's row count |
| `Analytics.EmitBucketsMatches` | lib/database.ts:310-314 | Listing the final accumulator in key order, with sales rounded, gives the specified buckets |
| `Analytics.FirstSeenKeysComplete` | lib/database.ts:300-308 | A month is listed iff some order row falls in it |
| `Analytics.KeySumOnePositive` | lib/database.ts:303-306 | Every listed month has at least one order |
| `Analytics.KeyedTotalConserves` | lib/database.ts:305-306 | Every row lands in exactly one bucket: the per-month sums add up to the sum over all rows |
| `Analytics.SalesBucketsCountEveryOrder` | lib/database.ts:306-313 | The bucket order counts add up to the number of order rows |
| `Analytics.SalesBucketsConserveSales` | lib/database.ts:305 | Before rounding, the bucket sales add up to the sum of all order totals |
| `Analytics.SalesBucketsShape` | lib/database.ts:300-314 | At most 12 buckets, with distinct month names; each holds its month's order count (at least 1) and its rounded sales; every row's month has a bucket |
| `Analytics.SalesBucketsInFirstOccurrenceOrder` | lib/database.ts:295-314 | Buckets appear in the order of their month's first row |
| `Analytics.SalesBucketsExample` | lib/database.ts:300-314 | Orders of 100 and 50 rupees in January and 30 in February give [Jan 150/2, Feb 30/1] |
| `Schema.MonthLabels` | lib/database.ts:301 | There are twelve short month names |
| `Schema.MonthLabelIsMonthName` | lib/database.ts:301 | Every month has one of the twelve names, and different months have different names |
| `ChatFallback.FallbackTemplate` | app/api/chat/route.ts:85-102 | The order guide is chosen iff the lower-cased message contains "order" |
| `ChatFallback.IsQuotaError` | app/api/chat/route.ts:156 | The code `insufficient_quota` is a quota error whatever the status, and so is status 429 whatever the code. No code and no status is not a quota error, and neither is another code with another status |
| `ChatFallback.FallbackIgnoresCase` | app/api/chat/route.ts:85-86 | Routing a lower-cased message gives the same template as routing the message |
| `ChatFallback.OrderWordsMeanOrder` | app/api/chat/route.ts:88-89 | The order test holds iff the text contains "order"; "create order" and "view order" add nothing |
| `ChatFallback.FallbackPriority` | app/api/chat/route.ts:85-102 | Each template is chosen iff its topic is mentioned and no earlier topic is (order > customer > inventory > dashboard > report > help); the default iff no keyword occurs |
| `ChatFallback.CustomerBeforeInventory` | app/api/chat/route.ts:88-93 | A message with "customer" and "stock" but without "order" gets the customer template |
| `ChatFallback.LastUserMessage` | app/api/chat/route.ts:107 | An empty conversation yields the empty text |
| `ChatFallback.EmptyConversationGetsWelcome` | app/api/chat/route.ts:101-107 | An empty conversation routes to the default template |
| `ChatFallback.ChatReply` | app/api/chat/route.ts:119-168 | The model's answer is returned iff the call completed. Otherwise the routed template is returned with the missing-key note iff there is no client, with the quota note iff the code is `insufficient_quota` or the status is 429, and with no note for any other error |
| `Store.StampedId` | lib/store.ts:78 | A generated id is the prefix followed by a non-empty run of decimal digits whose value is the clock reading |
| `Store.ErpStore.constructor` | lib/store.ts:67-72 | All three lists are empty and the view is "dashboard" |
| `Store.ErpStore.AddOrder` | lib/store.ts:75-83 | Length grows by one; existing orders are unchanged and in place; the new order is last with id "ORD-" + clock; the other fields are unchanged |
| `Store.ErpStore.UpdateOrder` | lib/store.ts:85-91 | Length and positions are kept; orders with another id are unchanged; each matching order takes the update's fields and keeps the rest; the other fields are unchanged |
| `Store.ErpStore.DeleteOrder` | lib/store.ts:93-97 | No order with the id remains; the rest keep their relative order; an absent id changes nothing; the other fields are unchanged |
| `Store.ErpStore.AddInventoryItem` | lib/store.ts:100-108 | The item is appended last with id "INV-" + clock; the other fields are unchanged |
| `Store.ErpStore.UpdateInventoryItem` | lib/store.ts:110-116 | Same as UpdateOrder, on the inventory |
| `Store.ErpStore.DeleteInventoryItem` | lib/store.ts:118-122 | Same as DeleteOrder, on the inventory |
| `Store.ErpStore.AddCustomer` | lib/store.ts:125-133 | The customer is appended last with id "CUST-" + clock; the other fields are unchanged |
| `Store.ErpStore.UpdateCustomer` | lib/store.ts:135-141 | Same as UpdateOrder, on the customers |
| `Store.ErpStore.DeleteCustomer` | lib/store.ts:143-147 | Same as DeleteOrder, on the customers |
| `Store.ErpStore.SetCurrentView` | lib/store.ts:150-152 | The view is set and nothing else changes |
| `Store.UpdatedOrdersIdempotent` | lib/store.ts:85-91 | Applying the same order update twice equals applying it once, even when it rewrites the id |
| `Store.UpdatedInventoryIdempotent` | lib/store.ts:110-116 | The same, for inventory updates |
| `Store.UpdatedCustomersIdempotent` | lib/store.ts:135-141 | The same, for customer updates |
| `Store.RemovedOrdersIdempotent` | lib/store.ts:93-97 | Deleting twice equals deleting once |
| `Store.StoreScenario` | lib/store.ts:67-152 | From the initial store: add an order and a customer, delete that customer by its stamped id, and switch to "orders". The result is one order with its "ORD-" id, no inventory, no customers, and view "orders" |
| `Store.MergeOrder` | lib/store.ts:88 | `{ ...order, ...updates }`: each field takes the update's value when the update carries it, and keeps the order's value otherwise |
| `Store.MergeInventoryItem` | lib/store.ts:113 | The same, field by field, for an inventory item |
| `Store.MergeCustomer` | lib/store.ts:138 | The same, field by field, for a customer |
| `Store.MergeOrderKeepsAbsentFields` | lib/store.ts:88 | An empty update changes nothing |
| `Lists.UpdateWhereKeyShape` | lib/store.ts:87-89 | The keyed `map` keeps length; it rewrites exactly the rows with the id and keeps the others in place |
| `Lists.UpdateWhereKeyIdempotent` | lib/store.ts:87-89 | With an idempotent rewrite, updating twice is updating once |
| `Lists.UpdateAbsentKey` | lib/store.ts:87-89 | An id that matches no row leaves the list unchanged |
| `Lists.RemoveKey` | lib/store.ts:95 | No kept row has the id; every row without the id is kept |
| `Lists.RemoveKeyProperties` | lib/store.ts:95 | The result is a subsequence; an absent id changes nothing; removing is idempotent |
| `Lists.Filter` | components/Customers.tsx:57-63 | `filter` keeps only elements that pass and never lengthens the list; every element that passes is kept as many times as it occurs |
| `Lists.FilterIsSubsequence` | components/Inventory.tsx:54-59 | A filtered list is a subsequence of the original |
| `Lists.FilterIdempotent` | components/Orders.tsx:183-193 | Filtering twice with one predicate is filtering once |
| `Lists.SumOfPermutation` | components/Inventory.tsx:204 | A `reduce` sum does not depend on the order of the elements |
| `Lists.CountPermutation` | lib/database.ts:275-277 | A `filter(...).length` count does not depend on the order of the elements |
| `Lists.CountDisjoint` | components/Customers.tsx:199-207 | Two predicates that no element satisfies together count at most the length in total |
| `Lists.RemovePosition` | components/Orders.tsx:106 | Exactly the element at the index is removed, and the others keep their order; an index outside the list removes nothing |
| `Lists.SumOfRemovePosition` | components/Orders.tsx:106-121 | Removing one element subtracts exactly its term from the sum |
| `Text.ToLower` | app/api/chat/route.ts:86 | Keeps the length. Each ASCII upper-case letter becomes its lower-case letter, every other character is kept, and no upper-case letter is left |
| `Text.Contains` | app/api/chat/route.ts:88 | `includes`: a string contains only words no longer than itself |
| `Text.Decimal` | components/Orders.tsx:89-92 | `String(n)` of a natural number is a non-empty run of digits without a leading zero |
| `Text.ToLowerIdempotent` | app/api/chat/route.ts:86 | Lower-casing twice equals lower-casing once |
| `Text.ContainsTransitive` | app/api/chat/route.ts:88 | If `w` occurs in `s` and `u` occurs in `w`, then `u` occurs in `s` |
| `Text.EmptyTermMatches` | components/Customers.tsx:58 | An empty search term matches every field |
| `Text.MatchesSearchCaseInsensitive` | components/Customers.tsx:58-60 | The search ignores the case of both the field and the term |
| `Text.DecimalRoundTrip` | components/Orders.tsx:89-92 | Reading back a rendered number gives the number |
| `Text.PadStart` | components/Orders.tsx:90-92 | The result has the target width (or the original length if longer), ends with the input, and is filled in front |
| `Text.PaddedDecimalRoundTrip` | components/Orders.tsx:90-92 | A zero-padded rendered number consists of digits and reads back as the number |
| `Text.CharUnits` | components/Orders.tsx:204-206 | A character is one UTF-16 code unit, or two when above U+FFFF: a high surrogate then a low surrogate. A lone unit is never a high surrogate |
| `Text.CodeUnitsInjective` | components/Orders.tsx:204-206 | Two strings with the same UTF-16 code units are the same string |
| `Text.SupplementaryBeforeHighBmp` | components/Orders.tsx:204-206 | JavaScript `<` compares code units: U+1F600 (0xD83D 0xDE00) is less than U+FF21 and not the reverse |
| `Text.StringLessTrichotomy` | components/Orders.tsx:204-206 | Of two different strings exactly one is less under JavaScript's code-unit `<` |
| `Text.StringLessTransitive` | components/Orders.tsx:204-206 | The code-unit string order is transitive |
| `OrderScreen.OrderNumber` | components/Orders.tsx:87-94 | The generated number starts with "ORD-" |
| `OrderScreen.OrderNumberLayout` | components/Orders.tsx:87-94 | With a 4-digit year: 16 characters; "ORD-" + year + 2-digit month + 2-digit day + "-" + 3-digit draw, each part reading back as its value |
| `OrderScreen.SubmittedOrder` | components/Orders.tsx:135-138 | The typed order number is kept when non-empty, else the generated one is used; no other field changes |
| `OrderScreen.Edited` | components/Orders.tsx:110-118 | Only the edited field changes. A quantity or unit-price edit makes the line total quantity × unit price |
| `OrderScreen.EditKeepsLineConsistent` | components/Orders.tsx:116-118 | An edit keeps a consistent line consistent |
| `OrderScreen.BlankItemAddsNothing` | components/Orders.tsx:96-101 | Appending the blank line leaves the items' sum unchanged |
| `OrderScreen.RemovedLineTotal` | components/Orders.tsx:103-108 | Removing a line takes exactly its total off the items' sum |
| `OrderScreen.RemoveItemStaleTotal` | components/Orders.tsx:103-108 | On a form, price line 0 at 2 × 100 paise, add a line, then remove line 0: `total_amount` still shows 200 while the remaining lines sum to 0 |
| `OrderScreen.OrderForm.constructor` | components/Orders.tsx:53-64 | One blank line, zero total, pending status and payment; the form is consistent |
| `OrderScreen.OrderForm.AddItem` | components/Orders.tsx:96-101 | Appends one blank line; nothing else changes; a consistent form stays consistent |
| `OrderScreen.OrderForm.RemoveItem` | components/Orders.tsx:103-108 | Removes exactly the line at the index and keeps the rest in order; the total is not recomputed |
| `OrderScreen.OrderForm.RemoveItemRetotalled` | components/Orders.tsx:103-108 | The corrected removal: the same lines, with the total recomputed; the total drops by the removed line's total |
| `OrderScreen.OrderForm.ChangeItem` | components/Orders.tsx:110-128 | Only the line at the index changes, by the edit; afterwards `total_amount` is the sum of the line totals |
| `OrderScreen.FilteredOrders` | components/Orders.tsx:183-193 | Keeps only matching rows, and every matching row |
| `OrderScreen.FilteredOrdersProperties` | components/Orders.tsx:183-193 | The result is a subsequence. An empty search with "all" keeps every row. A status selection keeps only exact matches. Filtering is idempotent |
| `OrderScreen.KeyOf` | components/Orders.tsx:195-196 | `a[sortBy]`: the date, amount and customer-name fields always have a key; only the amount field gives a number; delivery date, notes and creation time are undefined exactly when the row has none |
| `OrderScreen.Greater` | components/Orders.tsx:203-206 | JavaScript `>` on two keys (UTF-16 code-unit order on text, numeric order on amounts) holds only between distinct keys of the same kind |
| `OrderScreen.CustomerNamesByCodeUnits` | components/Orders.tsx:195-206 | Sorting customer names ascending, the comparator returns 1 for "Ａ" (U+FF21) against "😀" (U+1F600), and -1 descending |
| `OrderScreen.DefaultOrderNewestFirst` | components/Orders.tsx:49-50 | With the initial sort (order date, descending) a row sorts after another iff its date is earlier, and no two rows compare equal |
| `OrderScreen.KeysOfOneFieldAgree` | components/Orders.tsx:195-196 | Two rows' defined keys for one field are of the same kind |
| `OrderScreen.Compare` | components/Orders.tsx:194-207 | Two undefined keys give 0 and nothing else gives 0. An undefined key sorts after a defined one in both directions. Defined keys give 1 iff `a > b` ascending, or iff `a < b` descending |
| `OrderScreen.CompareEqualKeys` | components/Orders.tsx:203-206 | Equal defined keys compare as -1 in either direction |
| `OrderScreen.CompareDistinctKeys` | components/Orders.tsx:203-206 | On distinct keys the comparator is antisymmetric, and descending is ascending with the arguments swapped |
| `OrderScreen.CompareTransitive` | components/Orders.tsx:203-206 | On defined keys the comparator is transitive |
| `CustomerScreen.FilteredCustomers` | components/Customers.tsx:57-63 | Keeps only matching rows, and every matching row |
| `CustomerScreen.FilteredCustomersProperties` | components/Customers.tsx:57-63 | The result is a subsequence. An empty search with "all" keeps every customer. A status selection keeps only exact matches |
| `CustomerScreen.Summary` | components/Customers.tsx:196-213 | The total is the row count. Active (status) plus VIP never exceed it. Revenue is the sum spent, and 0 for no customers |
| `CustomerScreen.SummaryReordered` | components/Customers.tsx:196-213 | The figures do not depend on row order |
| `CustomerScreen.SummaryRevenueNonNegative` | components/Customers.tsx:213 | Revenue is non-negative when no amount is negative |
| `InventoryScreen.FilteredInventory` | components/Inventory.tsx:54-59 | Keeps only matching rows, and every matching row |
| `InventoryScreen.FilteredInventoryProperties` | components/Inventory.tsx:54-59 | The result is a subsequence. An empty search with "all" keeps every item. A category selection keeps only exact matches |
| `InventoryScreen.LowStockItems` | components/Inventory.tsx:61 | Keeps exactly the low-stock and out-of-stock items, in order |
| `InventoryScreen.ShowsLowStockAlert` | components/Inventory.tsx:98 | The banner never shows for an empty list, nor when every item is in stock |
| `InventoryScreen.AlertIffLowStock` | components/Inventory.tsx:98 | The banner shows iff some item is low-stock or out-of-stock |
| `InventoryScreen.Summary` | components/Inventory.tsx:199-209 | The total is the row count; the low-stock count never exceeds it; value is Σ price × quantity, and everything is 0 for no items |
| `InventoryScreen.SummaryReordered` | components/Inventory.tsx:204 | The figures do not depend on row order |
| `InventoryScreen.SummaryValueNonNegative` | components/Inventory.tsx:204 | The value is non-negative when prices and quantities are |

## Left out

- **Table reads and writes.** The CRUD wrappers of `lib/database.ts`, the
  client of `lib/supabase.ts`, and the queries inside the analytics functions
  are remote I/O. Rows read are inputs and a failed read is a `Result` error.
  The `gte`/`order` query of `getSalesData` is not modelled: the rows are
  taken as returned, in their order.
- **Dates and locale.** Parsing `order_date` with `new Date` and formatting
  the month with `toLocaleDateString` depend on the time zone. The model
  receives the calendar month.
- **Clock and randomness.** `Date.now()` and `Math.random()` are parameters.
- **Language-model call and HTTP.** The OpenAI request and the HTTP handling
  are left out, including the outer 500 error for an unreadable request body.
  The outcome of the call is an `ApiOutcome` input.
- **Canned text.** The wording of the seven canned answers and the two notes
  is not reproduced. They are the `Template` and `Note` values.
- **React.** Rendering, hooks and effects are left out. So are the
  hard-coded screens (Dashboard, Reports, Sidebar, Header, page, Chatbot) and
  the float-based metrics of `DolibarrDashboard.tsx`.
- **Sorting.** `Array.prototype.sort` with the comparator is not modelled:
  JavaScript's sort with an inconsistent comparator is unspecified. Only the
  comparator's properties are proved.
- `Text.ToLower`: lower-cases ASCII letters only; JavaScript's Unicode case
  mapping is not modelled.
- **Number widths.** Amounts are unbounded integers in paise. JavaScript's
  floating-point sums, `NaN`, and `parseInt`/`parseFloat` of form input are
  not modelled.
- **`Math.round` on fractional paise.** `RoundToUnit` rounds an exact paise
  amount, so the sum of fractional rupee amounts that floats would produce is
  not modelled.
- `OrderScreen.OrderForm.ChangeItem`: requires an index inside the list.
  The form calls it only with indices of rendered lines. JavaScript would
  extend the array for an index past the end, and that case is not modelled.
- **Edited fields.** `OrderScreen.Edited` covers the three fields the form
  edits (`product_name`, `quantity`, `unit_price`). Edits of `id` or
  `total_price` by key are not modelled.
- **Add input.** `Store.ErpStore.AddOrder`, `AddInventoryItem` and
  `AddCustomer` take a whole record and overwrite its id. The source takes the
  record without an id.

## Findings

| source | as written | input that shows it | evidently intended | confidence | as-written member | corrected member |
|---|---|---|---|---|---|---|
| components/Orders.tsx:103-108 | `handleRemoveItem` drops the line but keeps the old `total_amount` | lines [2 × 100 paise = 200, blank], total 200; removing line 0 leaves lines summing to 0 while the total stays 200 | recompute the total from the remaining lines, as `handleItemChange` does | medium, not executed | `OrderScreen.RemoveItemStaleTotal` | `OrderScreen.OrderForm.RemoveItemRetotalled` |
