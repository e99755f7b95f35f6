# Restaurant orders: pricing, order services and shift revenue

A Dafny model of the order core of a restaurant backend (a Django
application): orders placed at tables, each holding items that name a dish
and a quantity; the stored order total, which must equal the sum of
`dish.price * quantity` over the order's items; the two services that
create and patch orders; the signal hook that recomputes an order's total
whenever one of its items is saved or deleted; and the report of the
current shift's revenue.

- `wrappers.dfy`, module `Wrappers`: `Option`, `Result` and `Outcome` for the error paths.
- `catalog.dfy`, module `Catalog`: the dish and table records. Money is
  whole hundredths (`Cents`), since every decimal column has two places.
- `models.dfy`, module `Models`: the order status choices, the field
  defaults, the item and order totals, the database as a value `Db` with
  the transitions the ORM performs on it, and the class `Database`, whose
  methods perform the same transitions in place and are proved against
  those functions (`Snapshot() == Recompute(old(Snapshot()), o).value`,
  and so on).
  - The main invariant is `Consistent`: every stored total equals the sum
    over the order's items. It is preserved by every modelled operation
    except the item change as written (`Signals.ItemChangedAsWritten`, see
    "## Findings"); a dish price edit is not modelled and would break it
    (see "## Left out").
  - `ConsistentOutside(s, P)` says the same for every order outside `P`.
  - The only database failure is a total that does not fit the
    `numeric(10,2)` column. An atomic block that fails restores the saved state.
- `signals.dfy`, module `Signals`: the `post_save`/`post_delete` hook and
  the single-row item operations that fire it. These are adding, changing
  and deleting one item, the batch delete of an order's items, and the
  deletion of an order with its cascade.
- `order_creator.dfy`, module `OrderCreator`: `OrderCreator.create`.
- `order_updater.dfy`, module `OrderUpdater`: `OrderUpdater.update`,
  including its loop over the remaining keys.
- `shift_revenue.dfy`, module `ShiftRevenue`: `get_working_time_period`
  and `get_total_revenue` as functions of the clock reading, the two
  settings and the order rows.

Three facts about the code shape the model:
- `bulk_create` sends no `post_save` signal. On create, the only recompute
  is the explicit `update_total_price`. On an item replacement, the batch
  delete's `post_delete` hooks set the total to 0 first, and the explicit
  `update_total_price` after `bulk_create` stores the new lines' sum.
- `quantity` is a `PositiveIntegerField`, which admits 0.
- A PATCH with `items: []` leaves the items alone. The walrus test treats
  an empty list as absent.

## Model

| member | source | states |
|---|---|---|
| Models.ParseStatus | src/apps/orders/models.py:10-13 | exactly the three choice texts pending, ready and paid name a status, and each reads back as its own choice |
| Models.OrderTotalSnoc | src/apps/orders/models.py:76-79 | one more item row adds its dish's current price times its quantity to its own order's sum and nothing to any other order's |
| Models.ItemsOfAfterDelete | src/apps/orders/models.py:59-64 | deleting the items of one order leaves it with none and leaves every other order's items exactly as they were |
| Models.Recompute | src/apps/orders/models.py:50-53 | update_total_price fails exactly when the sum over the order's items does not fit numeric(10,2); on success it changes no item, dish, table or id sequence |
| Models.RecomputeStoresSum | src/apps/orders/models.py:50-53 | after recomputation the order's stored total is the sum over its current items; every other order row is unchanged and the order row keeps the instance's other fields |
| Models.RecomputeEmptyOrder | src/apps/orders/models.py:52 | an order with no items is saved with total 0, since an empty sum is 0 |
| Models.RecomputePreservesValid | src/apps/orders/models.py:50-53 | recomputation keeps keys unique, keeps foreign keys pointing at existing rows and keeps every stored total within the column |
| Models.RecomputeRestoresConsistency | src/apps/orders/models.py:50-53 | the recomputed order leaves the set of orders whose total may be stale; when it was the only one, every order is consistent again |
| Models.RecomputeIdempotent | src/apps/orders/models.py:50-53 | recomputing a second time with no item change in between succeeds and stores the same state |
| Models.SavedKeepsConsistency | src/apps/orders/models.py:53 | saving the one possibly stale order with the sum over its items makes the whole database consistent |
| Models.MakeItemsMatchLines | src/apps/orders/services/order_creator.py:35 | the built items are one per input line, in order, with that line's dish and quantity (default 1), all pointing at the order |
| Models.MakeItemsTotal | src/apps/orders/services/order_creator.py:35-37 | the built items add up to Σ price × quantity over the input lines |
| Models.BulkCreatedValid | src/apps/orders/services/order_creator.py:36 | bulk-creating items of an existing order with known dishes keeps the schema's guarantees |
| Models.BulkCreatedConsistentOutside | src/apps/orders/services/order_creator.py:36 | after bulk_create only the target order may be stale, and its sum grows by exactly the lines' total |
| Models.BulkCreatedOnEmpty | src/apps/orders/services/order_updater.py:36-37 | bulk-creating into an order with no items gives it exactly the built items, whose sum is the lines' total |
| Models.ItemsDeletedValid | src/apps/orders/services/order_updater.py:35 | the batch delete of an order's items keeps the schema's guarantees and leaves the order with no items |
| Models.OrderDeletedCascades | src/apps/orders/models.py:59-64 | deleting an order removes it and every item pointing at it, keeps every other order and its items, and keeps the database consistent |
| Models.Database.Restore | src/apps/orders/services/order_creator.py:33 | rolling back the atomic block returns every row and sequence to the saved state |
| Models.Database.Get | src/apps/orders/signals.py:10 | `instance.order` loads the row with that id; with unique ids it is the row at that id's position |
| Models.Database.InsertOrder | src/apps/orders/services/order_creator.py:34 | Order.objects.create appends one row with the next id, the given table, the default status and total, and the creation time |
| Models.Database.BulkCreate | src/apps/orders/services/order_creator.py:35-36 | the loop builds one item per line with consecutive ids and appends them after the existing rows |
| Models.Database.ItemsTotal | src/apps/orders/models.py:52 | the loop over the item rows returns the sum over the order's items |
| Models.Database.Save | src/apps/orders/services/order_updater.py:42 | order.save() replaces the row with that id by the instance and changes nothing else |
| Models.Database.UpdateTotalPrice | src/apps/orders/models.py:50-53 | update_total_price on the database returns the instance with the new total and leaves the state Recompute gives, or fails and changes nothing |
| Models.Database.DeleteItemsOf | src/apps/orders/services/order_updater.py:35 | order.order_items.all().delete() removes exactly that order's items and returns them |
| Models.Database.DeleteOrderRow | src/apps/orders/models.py:59-64 | the order row is removed and nothing else changes |
| Signals.OnItemChanged | src/apps/orders/signals.py:7-10 | the receiver recomputes the total of the item's own order, or fails and changes nothing |
| Signals.HookTouchesOnlyOwnOrder | src/apps/orders/signals.py:10 | after the hook the item's order holds the sum over its current items; no other order row and no item changes |
| Signals.HookRestoresConsistency | src/apps/orders/signals.py:7-10 | the hook removes the item's order from the set of possibly stale orders; the items and order ids stay as they were |
| Signals.ItemAddedKeepsConsistency | src/apps/orders/signals.py:7-10 | creating one item fires the hook on its order; every order stays consistent and the order's total grows by price × quantity |
| Signals.ItemDeletedKeepsConsistency | src/apps/orders/signals.py:7-10 | deleting one item fires the hook on its order; the item is gone and every order stays consistent |
| Signals.DeleteItem | src/apps/orders/signals.py:7-10 | item.delete() with its post_delete hook, in one transaction, performs the deletion transition or changes nothing |
| Signals.ItemChangedAsWrittenLeavesStaleTotal | src/apps/orders/signals.py:7-10 | with the hook as written, moving an order's only item to another order leaves the first order with its old total and no items |
| Signals.ItemChangedKeepsConsistency | src/apps/orders/signals.py:7-10 | an item change that recomputes both the order it left and the one it joined keeps every order consistent |
| Signals.ChangeItem | src/apps/orders/signals.py:7-10 | item.save() with the corrected hooks, in one transaction, performs that change or changes nothing |
| Signals.HookOnClearedOrder | src/apps/orders/signals.py:10 | once an order has no items, every post_delete hook saves it with total 0, and a repeated hook saves the same row |
| Signals.ItemsClearedValid | src/apps/orders/services/order_updater.py:35 | the batch delete and its hooks leave the order with no items and the other orders' items in place, and keep every order id |
| Signals.ItemsClearedConsistent | src/apps/orders/services/order_updater.py:35 | the batch delete and its hooks keep every order consistent and set the cleared order's total to 0 |
| Signals.ClearItems | src/apps/orders/services/order_updater.py:35 | the loop runs one post_delete hook per deleted item and ends in the cleared state |
| Signals.DeleteOrder | src/apps/orders/models.py:59-64 | order.delete() clears the items with their hooks and then deletes the row: the result is the cascade deletion |
| OrderCreator.InsertedValid | src/apps/orders/services/order_creator.py:34 | the new order's id is fresh, no item points at it yet, and the insert keeps the schema's guarantees |
| OrderCreator.InsertedConsistent | src/apps/orders/models.py:29-40 | a new order with the default total 0 and no items keeps the database consistent |
| OrderCreator.CreatedItemsTotal | src/apps/orders/services/order_creator.py:35-37 | the new order's items add up to Σ price × quantity over the input lines |
| OrderCreator.CreateOrderRows | src/apps/orders/services/order_creator.py:33-37 | create succeeds exactly when the lines' total fits the column; it appends one pending order for the table, created now, with the lines' total, and one item per line after the untouched existing rows |
| OrderCreator.CreateOrderKeepsConsistency | src/apps/orders/services/order_creator.py:33-37 | a successful create raises the order count by one, gives the new order exactly the built items, leaves the items of every existing order alone and keeps every order consistent |
| OrderCreator.Create | src/apps/orders/services/order_creator.py:33-37 | create on the database returns the new order and leaves the state CreateOrder gives, or fails and leaves no order or item behind |
| OrderUpdater.AssignFields | src/apps/orders/services/order_updater.py:39-41 | the loop over the remaining keys assigns them in order, as ApplyFields does |
| OrderUpdater.ApplyFieldsKeepsIdentity | src/apps/orders/services/order_updater.py:34-41 | the key loop never touches the id, the total or the creation time; `items` has been popped and cannot be assigned |
| OrderUpdater.ApplyFieldsLastStatusWins | src/apps/orders/services/order_updater.py:39-41 | the status afterwards is the value of the last status key, or the old status when there is none |
| OrderUpdater.ApplyFieldsLastTableWins | src/apps/orders/services/order_updater.py:39-41 | the table afterwards is the value of the last table key, or the old table when there is none |
| OrderUpdater.ApplyFieldsIgnoresUnknown | src/apps/orders/services/order_updater.py:40 | keys that name no attribute of the order are ignored: dropping them gives the same instance |
| OrderUpdater.UpdateOrderRows | src/apps/orders/services/order_updater.py:33-42 | update fails only when new items are given whose total does not fit. Otherwise, of the order rows only this order's changes, dishes, tables and the order id sequence stay as they were, and its items become exactly the new lines when they are given and stay as they were when they are not |
| OrderUpdater.UpdateReplacingRows | src/apps/orders/services/order_updater.py:34-38 | replacing items deletes the old ones and bulk-creates the new ones; the saved row carries the new lines' total and the assigned keys |
| OrderUpdater.ReplacedItemsConsistentOutside | src/apps/orders/services/order_updater.py:35-37 | after the delete and the bulk create only the patched order may be stale; its items are exactly the new ones, whose sum is the lines' total, and other orders keep theirs |
| OrderUpdater.UpdatedRowWellFormed | src/apps/orders/services/order_updater.py:39-42 | the saved row keeps the order's id and holds the new total and a table that exists |
| OrderUpdater.UpdateOrderKeepsConsistency | src/apps/orders/services/order_updater.py:33-42 | a successful update keeps the order count, keeps every order consistent, gives the patched order exactly the new items and leaves the items of every other order alone |
| OrderUpdater.PatchStatusReady | src/_tests/test_viewsets.py:107-113 | patching {'status': 'ready'} succeeds, keeps the order count and the items, and leaves the order ready with everything else unchanged |
| OrderUpdater.Update | src/apps/orders/services/order_updater.py:33-42 | update on the database returns the saved instance and leaves the state UpdateOrder gives, or fails and changes nothing |
| ShiftRevenue.ParseClock | src/apps/orders/services/total_revenue_getter.py:38 | strptime '%H:%M' accepts only an hour below 24 and a minute below 60 |
| ShiftRevenue.ParseFormatClock | src/apps/orders/services/total_revenue_getter.py:38 | every clock time written as HH:MM is read back as itself |
| ShiftRevenue.ShiftStartOnTheHour | src/apps/orders/services/total_revenue_getter.py:39 | the shift start has the date of now and lies exactly on the configured hour, with minutes, seconds and microseconds 0 |
| ShiftRevenue.WorkingTimePeriodWindow | src/apps/orders/services/total_revenue_getter.py:37-43 | a window exists exactly when now lies between the shift start and the start plus the configured hours, both ends included; the window then runs from the start to now |
| ShiftRevenue.WorkingTimePeriodIgnoresMinutes | src/apps/orders/services/total_revenue_getter.py:38-39 | the minutes of the configured start time do not affect the window |
| ShiftRevenue.DefaultWorkingTimePeriod | src/core/settings.py:96-97 | with the configured 10:00 and 12 hours, a window exists exactly from 10:00 to 22:00 of each day, and it starts at 10:00 of today |
| ShiftRevenue.PaidInWindow | src/apps/orders/services/total_revenue_getter.py:70-71 | the two filters keep exactly the paid orders created between the window's start and end, both included |
| ShiftRevenue.AggregateSum | src/apps/orders/services/total_revenue_getter.py:72 | SQL SUM over the filtered rows is missing exactly when no row matches |
| ShiftRevenue.SumPaidInWindow | src/apps/orders/services/total_revenue_getter.py:69-72 | filtering and then summing equals the revenue defined row by row |
| ShiftRevenue.TotalRevenueIsPaidRevenue | src/apps/orders/services/total_revenue_getter.py:66-74 | the revenue is 0 with no window and otherwise the sum of the paid orders' totals created in the window |
| ShiftRevenue.NoMatchingOrdersIsZero | src/apps/orders/services/total_revenue_getter.py:74 | with no matching row the sum is missing and the revenue reads it as 0 |
| ShiftRevenue.UnpaidOrderNeverCounts | src/apps/orders/services/total_revenue_getter.py:70 | a pending or ready order contributes nothing, wherever it stands among the rows |
| ShiftRevenue.RevenueExample | src/apps/orders/services/total_revenue_getter.py:57-74 | with the configured settings at noon, only the paid order created at 11:00 counts; at 08:00 there is no shift and the revenue is 0 |

## Findings

| source | as written | input that shows it | evidently intended | confidence | as-written member | corrected member |
|---|---|---|---|---|---|---|
| src/apps/orders/signals.py:7-10 | after an item is saved, the hook recomputes only the order the item now points at | the item admin's change form lets `order` be edited (src/apps/orders/admin.py:58-64). Move the only item of order 1, a dish of price p ≠ 0, to order 2. Order 2 is recomputed to p, but order 1 keeps total p with no items left | recompute both the order the item left and the order it joined | high; not executed | Signals.ItemChangedAsWrittenLeavesStaleTotal | Signals.ItemChangedKeepsConsistency |

The as-written change is `Signals.ItemChangedAsWritten`. The corrected
change is `Signals.ItemChanged`, which `Signals.ChangeItem` performs on the database.

## Left out

- The clock and time zones: "now" is a parameter, an instant in microseconds. The date and the hour replacement use UTC day arithmetic, with no time-zone conversion.
- ShiftRevenue.ParseClock: accepts ASCII digits only. Python's strptime also accepts other Unicode decimal digits.
- The configuration values are parameters (`ShiftSettings`), not global settings.
- `TimestampedModel` (src/core/models.py) is not part of this model. An order's `created` is the instant passed to create. `updated` is not modelled.
- Order row order: rows stay in insertion order. The `-created` ordering only affects listings, not sums.
- Models.Database.Restore: also resets the id sequences. A real database does not roll sequences back, so after a failed create the ids it drew stay used.
- The table field naming is abstracted into one `table` reference on the order, which create and the PATCH keys use:
  - the model field is `table_number` (src/apps/orders/models.py:19-23);
  - create passes `table=` (src/apps/orders/services/order_creator.py:34);
  - with the field as declared, a PATCH key `table` would fail `hasattr`.
- The serializers are preconditions. OrderCreator.Create requires a non-empty line list, which `validate_items` enforces (src/apps/orders/api/serializers.py:109-112). Every dish and table named must exist (`LinesKnown`, `PatchKnown`).
- Database failures other than a total that does not fit numeric(10,2) are not modelled. Integrity errors cannot occur because foreign keys are preconditions. Concurrent transactions are not modelled.
- Prefetched related caches are not modelled. `update_total_price` reads `order.order_items.all()` as a fresh query over the item rows; an instance loaded with `prefetch_related('order_items__dish')` (src/apps/orders/api/views.py:29) would sum its cached item list instead.
- Dish rows never change in the model. A price edit in the source (through the dish API or the admin) recomputes no order, so `Consistent` is not preserved by it. The modelled operations preserve it, except the item change as written (`Signals.ItemChangedAsWritten`, see "## Findings"); a stale total is corrected only when one of the order's items is next saved or deleted.
- Dish prices are unbounded integers of hundredths. The price column's own `max_digits` bound is not enforced.
- HTTP, authentication, views, URLs, filters, the admin classes and the browser script are not modelled.
- Only item changes made through single-row saves and deletes fire the hook: create, change and delete of one item, and the batch delete of an order's items. `bulk_create` fires nothing.
