/**
 * Orders and their items (apps/orders/models.py): the status choices, the
 * derived item and order totals, the rows of the database as a value `Db`
 * with the state transitions the ORM performs on it, and the `Database`
 * class whose methods perform those transitions in place.
 */
module Models {
  import opened Wrappers
  import opened Catalog

  type OrderId = nat
  type ItemId = nat

  /** A point in time: microseconds since the Unix epoch, as the clock reports it. */
  type Instant = int

  // ---------------------------------------------------------------------------
  // Status choices
  // ---------------------------------------------------------------------------

  /** OrderStatus: the three choices of the status column. */
  datatype OrderStatus = Pending | Ready | Paid

  /** The text stored in the status column for each choice. */
  function StatusValue(s: OrderStatus): string {
    match s
    case Pending => "pending"
    case Ready => "ready"
    case Paid => "paid"
  }

  /** Reads a stored status text back: exactly the three choice values are accepted. */
  function ParseStatus(t: string): (r: Option<OrderStatus>)
    ensures r.Some? <==> t == "pending" || t == "ready" || t == "paid"
    ensures r.Some? ==> StatusValue(r.value) == t
    ensures forall s :: t == StatusValue(s) ==> r == Some(s)
  {
    if t == "pending" then Some(Pending)
    else if t == "ready" then Some(Ready)
    else if t == "paid" then Some(Paid)
    else None
  }

  // ---------------------------------------------------------------------------
  // Field defaults and the total_price column
  // ---------------------------------------------------------------------------

  const DefaultStatus: OrderStatus := Pending
  const DefaultTotal: Cents := 0
  const DefaultQuantity: nat := 1

  /**
   * total_price is DecimalField(max_digits=10, decimal_places=2): a stored
   * value has at most 10 digits, 2 of them after the point, so its absolute
   * value in hundredths is below 10^10. Saving a larger value fails.
   */
  const TotalColumnBound: Cents := 10_000_000_000

  predicate FitsTotalColumn(c: Cents) {
    -TotalColumnBound < c < TotalColumnBound
  }

  /** The only database failure the model has: a total that does not fit its column. */
  datatype DbError = NumericOverflow

  // ---------------------------------------------------------------------------
  // Rows
  // ---------------------------------------------------------------------------

  /** An order row. The table reference is a single field (see README). */
  datatype Order = Order(id: OrderId, table: TableId, status: OrderStatus, totalPrice: Cents, created: Instant)

  /** An order item row: `quantity` is a PositiveIntegerField, which admits 0. */
  datatype OrderItem = OrderItem(id: ItemId, order: OrderId, dish: DishId, quantity: nat)

  /** One validated input line {dish, quantity}; an omitted quantity takes the field default. */
  datatype ItemLine = ItemLine(dish: DishId, quantity: Option<nat>)

  function LineQuantity(line: ItemLine): nat {
    line.quantity.GetOr(DefaultQuantity)
  }

  function NewOrder(id: OrderId, table: TableId, now: Instant): Order {
    Order(id, table, DefaultStatus, DefaultTotal, now)
  }

  // ---------------------------------------------------------------------------
  // Derived totals
  // ---------------------------------------------------------------------------

  predicate DishesKnown(items: seq<OrderItem>, dishes: map<DishId, Dish>) {
    forall x :: x in items ==> x.dish in dishes
  }

  /** OrderItem.total_price: the dish's current price times the quantity. */
  function ItemTotal(item: OrderItem, dishes: map<DishId, Dish>): Cents
    requires item.dish in dishes
  {
    dishes[item.dish].price * item.quantity
  }

  /** order.order_items.all(): the items whose order is `id`, in row order. */
  function ItemsOf(items: seq<OrderItem>, id: OrderId): (r: seq<OrderItem>)
    ensures forall x :: x in r <==> x in items && x.order == id
    ensures |r| <= |items|
  {
    if items == [] then []
    else
      var n := |items| - 1;
      assert items == items[..n] + [items[n]];
      ItemsOf(items[..n], id) + (if items[n].order == id then [items[n]] else [])
  }

  /** The rows left after deleting the items of order `id`. */
  function ItemsNotOf(items: seq<OrderItem>, id: OrderId): (r: seq<OrderItem>)
    ensures forall x :: x in r <==> x in items && x.order != id
    ensures |r| <= |items|
  {
    if items == [] then []
    else
      var n := |items| - 1;
      assert items == items[..n] + [items[n]];
      ItemsNotOf(items[..n], id) + (if items[n].order != id then [items[n]] else [])
  }

  /** Σ item.total_price over a list of items (Python's sum starts from 0). */
  function Subtotal(items: seq<OrderItem>, dishes: map<DishId, Dish>): Cents
    requires DishesKnown(items, dishes)
  {
    if items == [] then 0
    else
      var n := |items| - 1;
      assert items == items[..n] + [items[n]];
      Subtotal(items[..n], dishes) + ItemTotal(items[n], dishes)
  }

  /** The value update_total_price stores: the sum over the order's items. */
  function OrderTotal(items: seq<OrderItem>, dishes: map<DishId, Dish>, id: OrderId): Cents
    requires DishesKnown(items, dishes)
  {
    Subtotal(ItemsOf(items, id), dishes)
  }

  lemma {:induction false} SubtotalAppend(a: seq<OrderItem>, b: seq<OrderItem>, dishes: map<DishId, Dish>)
    requires DishesKnown(a, dishes) && DishesKnown(b, dishes)
    ensures DishesKnown(a + b, dishes)
    ensures Subtotal(a + b, dishes) == Subtotal(a, dishes) + Subtotal(b, dishes)
  {
    if b == [] {
      assert a + b == a;
    } else {
      var n := |b| - 1;
      assert (a + b)[..|a + b| - 1] == a + b[..n];
      assert b == b[..n] + [b[n]];
      SubtotalAppend(a, b[..n], dishes);
    }
  }

  lemma {:induction false} ItemsOfAppend(a: seq<OrderItem>, b: seq<OrderItem>, id: OrderId)
    ensures ItemsOf(a + b, id) == ItemsOf(a, id) + ItemsOf(b, id)
  {
    if b == [] {
      assert a + b == a;
    } else {
      var n := |b| - 1;
      assert (a + b)[..|a + b| - 1] == a + b[..n];
      ItemsOfAppend(a, b[..n], id);
    }
  }

  lemma {:induction false} ItemsNotOfAppend(a: seq<OrderItem>, b: seq<OrderItem>, id: OrderId)
    ensures ItemsNotOf(a + b, id) == ItemsNotOf(a, id) + ItemsNotOf(b, id)
  {
    if b == [] {
      assert a + b == a;
    } else {
      var n := |b| - 1;
      assert (a + b)[..|a + b| - 1] == a + b[..n];
      ItemsNotOfAppend(a, b[..n], id);
    }
  }

  /** A list with no item of order `id` contributes nothing to that order. */
  lemma ItemsOfAbsent(items: seq<OrderItem>, id: OrderId)
    requires forall x :: x in items ==> x.order != id
    ensures ItemsOf(items, id) == []
  {
  }

  /** Appending one row adds its total to its own order's sum and nothing to the others'. */
  lemma OrderTotalSnoc(items: seq<OrderItem>, x: OrderItem, dishes: map<DishId, Dish>, id: OrderId)
    requires DishesKnown(items + [x], dishes)
    ensures DishesKnown(items, dishes) && x.dish in dishes
    ensures OrderTotal(items + [x], dishes, id) == OrderTotal(items, dishes, id) + (if x.order == id then ItemTotal(x, dishes) else 0)
  {
    assert x in items + [x];
    forall y | y in items ensures y.dish in dishes {
      assert y in items + [x];
    }
    assert (items + [x])[..|items|] == items;
    var mine := ItemsOf(items, id);
    assert ItemsOf(items + [x], id) == mine + (if x.order == id then [x] else []);
    if x.order == id {
      assert (mine + [x])[..|mine|] == mine;
      assert Subtotal(mine + [x], dishes) == Subtotal(mine, dishes) + ItemTotal(x, dishes);
    } else {
      assert mine + [] == mine;
    }
  }

  lemma OrderTotalAppend(a: seq<OrderItem>, b: seq<OrderItem>, dishes: map<DishId, Dish>, id: OrderId)
    requires DishesKnown(a, dishes) && DishesKnown(b, dishes)
    ensures DishesKnown(a + b, dishes)
    ensures OrderTotal(a + b, dishes, id) == OrderTotal(a, dishes, id) + OrderTotal(b, dishes, id)
  {
    ItemsOfAppend(a, b, id);
    SubtotalAppend(ItemsOf(a, id), ItemsOf(b, id), dishes);
  }

  /** Deleting the items of one order leaves every other order's items as they were. */
  lemma {:induction false} ItemsOfAfterDelete(items: seq<OrderItem>, id: OrderId, other: OrderId)
    ensures ItemsOf(ItemsNotOf(items, id), other) == if other == id then [] else ItemsOf(items, other)
  {
    if items == [] {
    } else {
      var n := |items| - 1;
      ItemsOfAfterDelete(items[..n], id, other);
      var kept := if items[n].order != id then [items[n]] else [];
      ItemsOfAppend(ItemsNotOf(items[..n], id), kept, other);
    }
  }

  /**
   * Two lists of the same length that differ only at positions where
   * neither row belongs to order `id` have the same items of `id`.
   */
  lemma {:induction false} ItemsOfPointwise(a: seq<OrderItem>, b: seq<OrderItem>, id: OrderId)
    requires |a| == |b|
    requires forall k :: 0 <= k < |a| ==> a[k] == b[k] || (a[k].order != id && b[k].order != id)
    ensures ItemsOf(a, id) == ItemsOf(b, id)
  {
    if a != [] {
      var n := |a| - 1;
      ItemsOfPointwise(a[..n], b[..n], id);
    }
  }

  // ---------------------------------------------------------------------------
  // The database as a value
  // ---------------------------------------------------------------------------

  /** The rows of the four tables, in id order, and the next id each sequence hands out. */
  datatype Db = Db(
    dishes: map<DishId, Dish>,
    tables: map<TableId, Table>,
    orders: seq<Order>,
    items: seq<OrderItem>,
    nextOrderId: OrderId,
    nextItemId: ItemId)

  function OrderIds(orders: seq<Order>): set<OrderId> {
    set o | o in orders :: o.id
  }

  function ItemIds(items: seq<OrderItem>): set<ItemId> {
    set x | x in items :: x.id
  }

  predicate OrderIdsUnique(orders: seq<Order>) {
    forall i, j :: 0 <= i < j < |orders| ==> orders[i].id != orders[j].id
  }

  predicate ItemIdsUnique(items: seq<OrderItem>) {
    forall i, j :: 0 <= i < j < |items| ==> items[i].id != items[j].id
  }

  /**
   * What the schema guarantees: primary keys are unique and below the next
   * id of their sequence, every foreign key points at an existing row, and
   * every stored total fits its column.
   */
  predicate Valid(s: Db) {
    && OrderIdsUnique(s.orders)
    && ItemIdsUnique(s.items)
    && (forall o :: o in s.orders ==> o.id < s.nextOrderId && o.table in s.tables && FitsTotalColumn(o.totalPrice))
    && (forall x :: x in s.items ==> x.id < s.nextItemId && x.order in OrderIds(s.orders) && x.dish in s.dishes)
  }

  /** The main invariant: every order's stored total is the sum over its items. */
  predicate Consistent(s: Db) {
    && Valid(s)
    && forall o :: o in s.orders ==> o.totalPrice == OrderTotal(s.items, s.dishes, o.id)
  }

  /** Every order whose id is not in `pending` carries the sum over its items. */
  predicate ConsistentOutside(s: Db, pending: set<OrderId>) {
    && Valid(s)
    && forall o :: o in s.orders && o.id !in pending ==> o.totalPrice == OrderTotal(s.items, s.dishes, o.id)
  }

  /** Order.objects.get(pk=id): the row with that id. */
  function Find(orders: seq<Order>, id: OrderId): (o: Order)
    requires id in OrderIds(orders)
    ensures o in orders && o.id == id
  {
    if orders[0].id == id then orders[0]
    else
      assert orders == [orders[0]] + orders[1..];
      Find(orders[1..], id)
  }

  /** With unique ids, the row found for an id is the one at its position. */
  lemma FindAt(orders: seq<Order>, k: nat)
    requires OrderIdsUnique(orders) && k < |orders|
    ensures orders[k].id in OrderIds(orders)
    ensures Find(orders, orders[k].id) == orders[k]
  {
    assert orders[k] in orders;
    var o := Find(orders, orders[k].id);
    var j :| 0 <= j < |orders| && orders[j] == o;
    assert j == k;
  }

  /** instance.save() on an existing order: its row takes the instance's values. */
  function SaveRow(orders: seq<Order>, o: Order): (r: seq<Order>)
    ensures |r| == |orders|
  {
    seq(|orders|, k requires 0 <= k < |orders| => if orders[k].id == o.id then o else orders[k])
  }

  lemma SaveRowAt(orders: seq<Order>, o: Order, k: nat)
    requires k < |orders|
    ensures SaveRow(orders, o)[k] == if orders[k].id == o.id then o else orders[k]
  {
  }

  lemma SaveRowIds(orders: seq<Order>, o: Order)
    ensures OrderIds(SaveRow(orders, o)) == OrderIds(orders)
    ensures OrderIdsUnique(orders) ==> OrderIdsUnique(SaveRow(orders, o))
  {
    var r := SaveRow(orders, o);
    forall id | id in OrderIds(orders) ensures id in OrderIds(r) {
      var k :| 0 <= k < |orders| && orders[k].id == id;
      assert r[k] in r;
    }
    forall id | id in OrderIds(r) ensures id in OrderIds(orders) {
      var k :| 0 <= k < |r| && r[k].id == id;
      assert orders[k] in orders;
    }
  }

  /** A second save of the same order overrides the first. */
  lemma SaveRowTwice(orders: seq<Order>, a: Order, b: Order)
    requires a.id == b.id
    ensures SaveRow(SaveRow(orders, a), b) == SaveRow(orders, b)
  {
  }

  lemma FindSaved(orders: seq<Order>, o: Order)
    requires o.id in OrderIds(orders)
    ensures o.id in OrderIds(SaveRow(orders, o))
    ensures Find(SaveRow(orders, o), o.id) == o
  {
    SaveRowIds(orders, o);
    var r := SaveRow(orders, o);
    var f := Find(r, o.id);
    var j :| 0 <= j < |r| && r[j] == f;
  }

  function Saved(s: Db, o: Order): Db {
    s.(orders := SaveRow(s.orders, o))
  }

  /**
   * Saving an existing order with a table that exists and a total equal
   * to the sum over its items makes that order consistent; when it was the
   * only one that might not be, the whole database is.
   */
  lemma SavedKeepsConsistency(s: Db, o: Order)
    requires ConsistentOutside(s, {o.id}) && o.id in OrderIds(s.orders) && o.table in s.tables
    requires o.totalPrice == OrderTotal(s.items, s.dishes, o.id) && FitsTotalColumn(o.totalPrice)
    ensures Consistent(Saved(s, o))
    ensures OrderIds(Saved(s, o).orders) == OrderIds(s.orders)
  {
    var t := Saved(s, o);
    SaveRowIds(s.orders, o);
    var p := Find(s.orders, o.id);
    forall q | q in t.orders ensures q.id < t.nextOrderId && q.table in t.tables && FitsTotalColumn(q.totalPrice)
      && q.totalPrice == OrderTotal(t.items, t.dishes, q.id)
    {
      var k :| 0 <= k < |t.orders| && t.orders[k] == q;
      assert s.orders[k] in s.orders;
    }
  }

  // ---------------------------------------------------------------------------
  // Recomputing an order's total
  // ---------------------------------------------------------------------------

  /**
   * Order.update_total_price on the instance `o`: set its total to the sum
   * over the order's current items, then save the instance. The save fails
   * when the sum does not fit the column.
   */
  function Recompute(s: Db, o: Order): (r: Result<Db, DbError>)
    requires Valid(s)
    ensures r.Ok? <==> FitsTotalColumn(OrderTotal(s.items, s.dishes, o.id))
    ensures r.Ok? ==> r.value.items == s.items && r.value.dishes == s.dishes && r.value.tables == s.tables
    ensures r.Ok? ==> r.value.nextOrderId == s.nextOrderId && r.value.nextItemId == s.nextItemId
  {
    var total := OrderTotal(s.items, s.dishes, o.id);
    if FitsTotalColumn(total) then Ok(Saved(s, o.(totalPrice := total))) else Err(NumericOverflow)
  }

  /**
   * After a successful recomputation the order's row holds the sum over its
   * items and the rest of the instance; every other row is as it was.
   */
  lemma RecomputeStoresSum(s: Db, o: Order)
    requires Valid(s) && o.id in OrderIds(s.orders) && Recompute(s, o).Ok?
    ensures var t := Recompute(s, o).value;
      && |t.orders| == |s.orders|
      && (forall k :: 0 <= k < |s.orders| && s.orders[k].id != o.id ==> t.orders[k] == s.orders[k])
      && (forall k :: 0 <= k < |s.orders| && s.orders[k].id == o.id ==>
            t.orders[k] == o.(totalPrice := OrderTotal(s.items, s.dishes, o.id)))
      && Find(t.orders, o.id).totalPrice == OrderTotal(t.items, t.dishes, o.id)
  {
    FindSaved(s.orders, o.(totalPrice := OrderTotal(s.items, s.dishes, o.id)));
  }

  /** An order with no items is recomputed to 0. */
  lemma RecomputeEmptyOrder(s: Db, o: Order)
    requires Valid(s) && ItemsOf(s.items, o.id) == []
    ensures Recompute(s, o) == Ok(Saved(s, o.(totalPrice := 0)))
  {
  }

  lemma RecomputePreservesValid(s: Db, o: Order)
    requires Valid(s) && o.id in OrderIds(s.orders) && o.table in s.tables
    requires Recompute(s, o).Ok?
    ensures Valid(Recompute(s, o).value)
  {
    var o' := o.(totalPrice := OrderTotal(s.items, s.dishes, o.id));
    SaveRowIds(s.orders, o');
    var t := Recompute(s, o).value;
    forall p | p in t.orders ensures p.id < t.nextOrderId && p.table in t.tables && FitsTotalColumn(p.totalPrice) {
      var k :| 0 <= k < |t.orders| && t.orders[k] == p;
      assert s.orders[k] in s.orders;
      if s.orders[k].id == o.id {
        var q :| q in s.orders && q.id == o.id;
      }
    }
  }

  /**
   * The hook's guarantee: recomputing order `o.id` makes it consistent and
   * leaves every other order's total alone, so the set of orders whose
   * stored total may be stale loses `o.id` (and, from the single order the
   * hook was called for, becomes empty: the whole database is consistent).
   */
  lemma RecomputeRestoresConsistency(s: Db, o: Order, pending: set<OrderId>)
    requires ConsistentOutside(s, pending) && o.id in OrderIds(s.orders) && o.table in s.tables
    requires Recompute(s, o).Ok?
    ensures ConsistentOutside(Recompute(s, o).value, pending - {o.id})
    ensures pending <= {o.id} ==> Consistent(Recompute(s, o).value)
  {
    RecomputePreservesValid(s, o);
    var t := Recompute(s, o).value;
    forall p | p in t.orders && p.id !in pending - {o.id} ensures p.totalPrice == OrderTotal(t.items, t.dishes, p.id) {
      var k :| 0 <= k < |t.orders| && t.orders[k] == p;
      assert s.orders[k] in s.orders;
    }
  }

  /** Recomputing a second time, with no item changed in between, stores the same state. */
  lemma RecomputeIdempotent(s: Db, o: Order)
    requires Valid(s) && o.id in OrderIds(s.orders) && o.table in s.tables && Recompute(s, o).Ok?
    ensures var t := Recompute(s, o).value;
      && Valid(t)
      && o.id in OrderIds(t.orders)
      && Recompute(t, Find(t.orders, o.id)) == Ok(t)
  {
    var total := OrderTotal(s.items, s.dishes, o.id);
    var o' := o.(totalPrice := total);
    FindSaved(s.orders, o');
    RecomputePreservesValid(s, o);
    SaveRowTwice(s.orders, o', o');
  }

  // ---------------------------------------------------------------------------
  // Inserting and deleting rows
  // ---------------------------------------------------------------------------

  /** Order.objects.create(table=...): a new row with the field defaults. */
  function Inserted(s: Db, table: TableId, now: Instant): Db {
    s.(orders := s.orders + [NewOrder(s.nextOrderId, table, now)], nextOrderId := s.nextOrderId + 1)
  }

  predicate LinesKnown(lines: seq<ItemLine>, dishes: map<DishId, Dish>) {
    forall l :: l in lines ==> l.dish in dishes
  }

  /** [OrderItem(order=order, **line) for line in lines], with the ids the sequence hands out. */
  function MakeItems(id: OrderId, lines: seq<ItemLine>, first: ItemId): (r: seq<OrderItem>)
    ensures |r| == |lines|
  {
    seq(|lines|, k requires 0 <= k < |lines| => OrderItem(first + k, id, lines[k].dish, LineQuantity(lines[k])))
  }

  /** One item per input line, in order, with that line's dish and quantity, all pointing at `id`. */
  lemma MakeItemsMatchLines(id: OrderId, lines: seq<ItemLine>, first: ItemId)
    ensures var r := MakeItems(id, lines, first);
      && |r| == |lines|
      && (forall k :: 0 <= k < |r| ==>
            r[k].order == id && r[k].dish == lines[k].dish && r[k].quantity == LineQuantity(lines[k]) && r[k].id == first + k)
      && ItemsOf(r, id) == r
      && (forall other :: other != id ==> ItemsOf(r, other) == [])
  {
    var r := MakeItems(id, lines, first);
    forall other | other != id ensures ItemsOf(r, other) == [] {
      ItemsOfAbsent(r, other);
    }
    ItemsOfAllOwn(r, id);
  }

  lemma {:induction false} ItemsOfAllOwn(items: seq<OrderItem>, id: OrderId)
    requires forall k :: 0 <= k < |items| ==> items[k].order == id
    ensures ItemsOf(items, id) == items
  {
    if items != [] {
      var n := |items| - 1;
      ItemsOfAllOwn(items[..n], id);
      assert ItemsOf(items, id) == ItemsOf(items[..n], id) + [items[n]];
      assert items[..n] + [items[n]] == items;
    }
  }

  /** OrderItem.objects.bulk_create: append the new rows; no signal is sent. */
  function BulkCreated(s: Db, id: OrderId, lines: seq<ItemLine>): Db {
    s.(items := s.items + MakeItems(id, lines, s.nextItemId), nextItemId := s.nextItemId + |lines|)
  }

  /** Appending the items of an existing order keeps the schema's guarantees. */
  lemma BulkCreatedValid(s: Db, id: OrderId, lines: seq<ItemLine>)
    requires Valid(s) && id in OrderIds(s.orders) && LinesKnown(lines, s.dishes)
    ensures Valid(BulkCreated(s, id, lines))
  {
    var made := MakeItems(id, lines, s.nextItemId);
    var t := BulkCreated(s, id, lines);
    forall x | x in made ensures x.id < t.nextItemId && x.order in OrderIds(t.orders) && x.dish in t.dishes {
      var k :| 0 <= k < |made| && made[k] == x;
      assert lines[k] in lines;
    }
    forall i, j | 0 <= i < j < |t.items| ensures t.items[i].id != t.items[j].id {
      if j >= |s.items| && i < |s.items| {
        assert s.items[i] in s.items;
      }
    }
  }

  /**
   * Appending new items of order `id` leaves every other order's sum as it
   * was: only `id` may now carry a stale total.
   */
  lemma BulkCreatedConsistentOutside(s: Db, id: OrderId, lines: seq<ItemLine>)
    requires Consistent(s) && id in OrderIds(s.orders) && LinesKnown(lines, s.dishes)
    ensures ConsistentOutside(BulkCreated(s, id, lines), {id})
    ensures OrderTotal(BulkCreated(s, id, lines).items, s.dishes, id) == OrderTotal(s.items, s.dishes, id) + LinesTotal(lines, s.dishes)
  {
    var made := MakeItems(id, lines, s.nextItemId);
    var t := BulkCreated(s, id, lines);
    BulkCreatedValid(s, id, lines);
    MakeItemsTotal(id, lines, s.nextItemId, s.dishes);
    MakeItemsMatchLines(id, lines, s.nextItemId);
    OrderTotalAppend(s.items, made, s.dishes, id);
    forall o | o in t.orders && o.id != id ensures o.totalPrice == OrderTotal(t.items, t.dishes, o.id) {
      AppendOtherOrder(s.items, made, s.dishes, o.id);
    }
  }

  /** Rows of other orders appended to a list leave the sum of order `other` unchanged. */
  lemma AppendOtherOrder(a: seq<OrderItem>, b: seq<OrderItem>, dishes: map<DishId, Dish>, other: OrderId)
    requires DishesKnown(a, dishes) && DishesKnown(b, dishes) && ItemsOf(b, other) == []
    ensures DishesKnown(a + b, dishes)
    ensures OrderTotal(a + b, dishes, other) == OrderTotal(a, dishes, other)
  {
    OrderTotalAppend(a, b, dishes, other);
  }

  /**
   * Bulk-creating the items of an order that has none gives it exactly the
   * built items, whose sum is the lines' total.
   */
  lemma BulkCreatedOnEmpty(s: Db, id: OrderId, lines: seq<ItemLine>)
    requires Valid(s) && id in OrderIds(s.orders) && LinesKnown(lines, s.dishes) && ItemsOf(s.items, id) == []
    ensures Valid(BulkCreated(s, id, lines))
    ensures ItemsOf(BulkCreated(s, id, lines).items, id) == MakeItems(id, lines, s.nextItemId)
    ensures OrderTotal(BulkCreated(s, id, lines).items, s.dishes, id) == LinesTotal(lines, s.dishes)
  {
    var made := MakeItems(id, lines, s.nextItemId);
    BulkCreatedValid(s, id, lines);
    MakeItemsTotal(id, lines, s.nextItemId, s.dishes);
    MakeItemsMatchLines(id, lines, s.nextItemId);
    ItemsOfAppend(s.items, made, id);
    assert [] + made == made;
  }

  /** Σ price × quantity over input lines. */
  function LinesTotal(lines: seq<ItemLine>, dishes: map<DishId, Dish>): Cents
    requires LinesKnown(lines, dishes)
  {
    if lines == [] then 0
    else
      var n := |lines| - 1;
      assert lines[n] in lines;
      LinesTotal(lines[..n], dishes) + dishes[lines[n].dish].price * LineQuantity(lines[n])
  }

  /** The items built from `lines` add up to the lines' total. */
  lemma {:induction false} MakeItemsTotal(id: OrderId, lines: seq<ItemLine>, first: ItemId, dishes: map<DishId, Dish>)
    requires LinesKnown(lines, dishes)
    ensures DishesKnown(MakeItems(id, lines, first), dishes)
    ensures Subtotal(MakeItems(id, lines, first), dishes) == LinesTotal(lines, dishes)
  {
    var r := MakeItems(id, lines, first);
    forall x | x in r ensures x.dish in dishes {
      var k :| 0 <= k < |r| && r[k] == x;
      assert lines[k] in lines;
    }
    if lines != [] {
      var n := |lines| - 1;
      assert MakeItems(id, lines[..n], first) == r[..n];
      MakeItemsTotal(id, lines[..n], first, dishes);
    }
  }

  /** order.order_items.all().delete(). */
  function ItemsDeleted(s: Db, id: OrderId): Db {
    s.(items := ItemsNotOf(s.items, id))
  }

  /** Deleting rows of the items table keeps the schema's guarantees. */
  lemma ItemsDeletedValid(s: Db, id: OrderId)
    requires Valid(s)
    ensures Valid(ItemsDeleted(s, id))
    ensures ItemsOf(ItemsDeleted(s, id).items, id) == []
  {
    ItemsNotOfUnique(s.items, id);
    ItemsOfAfterDelete(s.items, id, id);
  }

  /** The order rows left after deleting order `id`. */
  function OrdersNotOf(orders: seq<Order>, id: OrderId): (r: seq<Order>)
    ensures forall o :: o in r <==> o in orders && o.id != id
  {
    if orders == [] then []
    else
      var n := |orders| - 1;
      assert orders == orders[..n] + [orders[n]];
      OrdersNotOf(orders[..n], id) + (if orders[n].id != id then [orders[n]] else [])
  }

  /** Whatever was saved into order `o.id`'s row is gone once that order's rows are deleted. */
  lemma {:induction false} OrdersNotOfSaved(orders: seq<Order>, o: Order)
    ensures OrdersNotOf(SaveRow(orders, o), o.id) == OrdersNotOf(orders, o.id)
  {
    if orders != [] {
      var n := |orders| - 1;
      assert SaveRow(orders, o)[..n] == SaveRow(orders[..n], o);
      OrdersNotOfSaved(orders[..n], o);
    }
  }

  /** order.delete(): the row goes, and with it (on_delete=CASCADE) every item of the order. */
  function OrderDeleted(s: Db, id: OrderId): Db {
    s.(orders := OrdersNotOf(s.orders, id), items := ItemsNotOf(s.items, id))
  }

  lemma {:induction false} OrdersNotOfUnique(orders: seq<Order>, id: OrderId)
    requires OrderIdsUnique(orders)
    ensures OrderIdsUnique(OrdersNotOf(orders, id))
  {
    if orders != [] {
      var n := |orders| - 1;
      OrdersNotOfUnique(orders[..n], id);
      var rest := OrdersNotOf(orders[..n], id);
      forall i | 0 <= i < |rest| ensures rest[i].id != orders[n].id {
        assert rest[i] in rest;
        var j :| 0 <= j < n && orders[..n][j] == rest[i];
      }
    }
  }

  lemma {:induction false} ItemsNotOfUnique(items: seq<OrderItem>, id: OrderId)
    requires ItemIdsUnique(items)
    ensures ItemIdsUnique(ItemsNotOf(items, id))
  {
    if items != [] {
      var n := |items| - 1;
      ItemsNotOfUnique(items[..n], id);
      var rest := ItemsNotOf(items[..n], id);
      forall i | 0 <= i < |rest| ensures rest[i].id != items[n].id {
        assert rest[i] in rest;
        var j :| 0 <= j < n && items[..n][j] == rest[i];
      }
    }
  }

  /**
   * Deleting an order removes every item of it, keeps every other order's
   * row and items, and keeps the database consistent.
   */
  lemma OrderDeletedCascades(s: Db, id: OrderId)
    requires Consistent(s)
    ensures var t := OrderDeleted(s, id);
      && Consistent(t)
      && id !in OrderIds(t.orders)
      && (forall x :: x in t.items ==> x.order != id)
      && (forall o :: o in s.orders && o.id != id ==> o in t.orders)
      && (forall other :: other != id ==> ItemsOf(t.items, other) == ItemsOf(s.items, other))
  {
    var t := OrderDeleted(s, id);
    OrdersNotOfUnique(s.orders, id);
    ItemsNotOfUnique(s.items, id);
    forall x | x in t.items ensures x.order in OrderIds(t.orders) {
      var o :| o in s.orders && o.id == x.order;
      assert o in t.orders;
    }
    forall other | other != id ensures ItemsOf(t.items, other) == ItemsOf(s.items, other) {
      ItemsOfAfterDelete(s.items, id, other);
    }
    assert Valid(t);
    forall o | o in t.orders ensures o.totalPrice == OrderTotal(t.items, t.dishes, o.id) {
      ItemsOfAfterDelete(s.items, id, o.id);
    }
  }

  // ---------------------------------------------------------------------------
  // The database, updated in place
  // ---------------------------------------------------------------------------

  /** The database connection: each method performs one ORM operation on the rows. */
  class Database {
    var dishes: map<DishId, Dish>
    var tables: map<TableId, Table>
    var orders: seq<Order>
    var items: seq<OrderItem>
    var nextOrderId: OrderId
    var nextItemId: ItemId

    function Snapshot(): Db
      reads this
    {
      Db(dishes, tables, orders, items, nextOrderId, nextItemId)
    }

    /** A database holding the given menu and tables and no orders; sequences start at 1. */
    constructor (dishes: map<DishId, Dish>, tables: map<TableId, Table>)
      ensures Snapshot() == Db(dishes, tables, [], [], 1, 1)
      ensures Valid(Snapshot())
    {
      this.dishes := dishes;
      this.tables := tables;
      orders := [];
      items := [];
      nextOrderId := 1;
      nextItemId := 1;
    }

    /** Rolling back a transaction: every row returns to the saved state. */
    method Restore(saved: Db)
      modifies this
      ensures Snapshot() == saved
    {
      dishes, tables, orders, items := saved.dishes, saved.tables, saved.orders, saved.items;
      nextOrderId, nextItemId := saved.nextOrderId, saved.nextItemId;
    }

    method Get(id: OrderId) returns (o: Order)
      requires id in OrderIds(orders)
      ensures o == Find(orders, id)
      ensures o in orders && o.id == id
      ensures OrderIdsUnique(orders) ==> forall k :: 0 <= k < |orders| && orders[k].id == id ==> orders[k] == o
    {
      o := Find(orders, id);
      forall k | 0 <= k < |orders| && orders[k].id == id && OrderIdsUnique(orders) ensures orders[k] == o {
        FindAt(orders, k);
      }
    }

    method InsertOrder(table: TableId, now: Instant) returns (o: Order)
      modifies this
      ensures o == NewOrder(old(nextOrderId), table, now)
      ensures Snapshot() == Inserted(old(Snapshot()), table, now)
    {
      o := NewOrder(nextOrderId, table, now);
      orders := orders + [o];
      nextOrderId := nextOrderId + 1;
    }

    method BulkCreate(id: OrderId, lines: seq<ItemLine>)
      modifies this
      ensures Snapshot() == BulkCreated(old(Snapshot()), id, lines)
    {
      var built: seq<OrderItem> := [];
      var k := 0;
      while k < |lines|
        invariant 0 <= k <= |lines|
        invariant |built| == k
        invariant forall j :: 0 <= j < k ==> built[j] == OrderItem(nextItemId + j, id, lines[j].dish, LineQuantity(lines[j]))
      {
        built := built + [OrderItem(nextItemId + k, id, lines[k].dish, LineQuantity(lines[k]))];
        k := k + 1;
      }
      assert built == MakeItems(id, lines, nextItemId);
      items := items + built;
      nextItemId := nextItemId + |lines|;
    }

    /** sum([item.total_price for item in order.order_items.all()]). */
    method ItemsTotal(id: OrderId) returns (total: Cents)
      requires DishesKnown(items, dishes)
      ensures total == OrderTotal(items, dishes, id)
    {
      total := 0;
      var k := 0;
      while k < |items|
        invariant 0 <= k <= |items|
        invariant DishesKnown(items[..k], dishes)
        invariant total == OrderTotal(items[..k], dishes, id)
      {
        assert items[..k + 1] == items[..k] + [items[k]];
        assert items[k] in items;
        OrderTotalSnoc(items[..k], items[k], dishes, id);
        if items[k].order == id {
          total := total + ItemTotal(items[k], dishes);
        }
        k := k + 1;
      }
      assert items[..k] == items;
    }

    method Save(o: Order)
      modifies this
      ensures Snapshot() == Saved(old(Snapshot()), o)
    {
      orders := SaveRow(orders, o);
    }

    /** Order.update_total_price: returns the updated instance, or the save's failure. */
    method UpdateTotalPrice(o: Order) returns (r: Result<Order, DbError>)
      requires Valid(Snapshot())
      modifies this
      ensures var spec := Recompute(old(Snapshot()), o);
        && (spec.Ok? ==> r == Ok(o.(totalPrice := OrderTotal(old(items), old(dishes), o.id))) && Snapshot() == spec.value)
        && (spec.Err? ==> r == Err(spec.error) && Snapshot() == old(Snapshot()))
    {
      var total := ItemsTotal(o.id);
      if !FitsTotalColumn(total) {
        r := Err(NumericOverflow);
        return;
      }
      var updated := o.(totalPrice := total);
      Save(updated);
      r := Ok(updated);
    }

    /** order.order_items.all().delete(): returns the deleted rows. */
    method DeleteItemsOf(id: OrderId) returns (removed: seq<OrderItem>)
      modifies this
      ensures removed == ItemsOf(old(items), id)
      ensures Snapshot() == ItemsDeleted(old(Snapshot()), id)
    {
      removed := ItemsOf(items, id);
      items := ItemsNotOf(items, id);
    }

    method DeleteOrderRow(id: OrderId)
      modifies this
      ensures Snapshot() == old(Snapshot()).(orders := OrdersNotOf(old(orders), id))
    {
      orders := OrdersNotOf(orders, id);
    }
  }
}
