/**
 * OrderCreator.create (apps/orders/services/order_creator.py): one new
 * order for a table, one item per validated input line, then the order's
 * total recomputed, all inside one transaction.
 */
module OrderCreator {
  import opened Wrappers
  import opened Catalog
  import opened Models

  /** The row the new order ends up with: default status, the lines' sum, created now. */
  function CreatedOrder(s: Db, table: TableId, lines: seq<ItemLine>, now: Instant): Order
    requires LinesKnown(lines, s.dishes)
  {
    NewOrder(s.nextOrderId, table, now).(totalPrice := LinesTotal(lines, s.dishes))
  }

  /**
   * The id the sequence hands out next belongs to no existing order and to
   * no item; inserting the order row keeps the schema's guarantees.
   */
  lemma InsertedValid(s: Db, table: TableId, now: Instant)
    requires Valid(s) && table in s.tables
    ensures s.nextOrderId !in OrderIds(s.orders)
    ensures ItemsOf(s.items, s.nextOrderId) == []
    ensures Valid(Inserted(s, table, now))
    ensures s.nextOrderId in OrderIds(Inserted(s, table, now).orders)
  {
    var t := Inserted(s, table, now);
    var added := NewOrder(s.nextOrderId, table, now);
    assert added in t.orders;
    forall x | x in s.items ensures x.order != s.nextOrderId {
      var o :| o in s.orders && o.id == x.order;
    }
    ItemsOfAbsent(s.items, s.nextOrderId);
    forall x | x in t.items ensures x.order in OrderIds(t.orders) {
      var o :| o in s.orders && o.id == x.order;
      assert o in t.orders;
    }
    forall i, j | 0 <= i < j < |t.orders| ensures t.orders[i].id != t.orders[j].id {
      if j == |s.orders| {
        assert s.orders[i] in s.orders;
      }
    }
  }

  /** A new order with no items is consistent with the rest: its default total is the empty sum. */
  lemma InsertedConsistent(s: Db, table: TableId, now: Instant)
    requires Consistent(s) && table in s.tables
    ensures Consistent(Inserted(s, table, now))
  {
    InsertedValid(s, table, now);
  }

  /** Saving a row that was appended last, with its id found nowhere before, replaces that last row. */
  lemma SaveRowFreshLast(orders: seq<Order>, last: Order, o: Order)
    requires last.id !in OrderIds(orders) && o.id == last.id
    ensures SaveRow(orders + [last], o) == orders + [o]
  {
    var r := SaveRow(orders + [last], o);
    forall k | 0 <= k < |orders| ensures r[k] == orders[k] {
      assert orders[k] in orders;
    }
  }

  /**
   * The whole of create as a transition: insert the order, bulk-create its
   * items (no signal is sent), then update_total_price on the new instance.
   * A failing save rolls the whole transaction back.
   */
  function CreateOrder(s: Db, table: TableId, lines: seq<ItemLine>, now: Instant): (r: Result<Db, DbError>)
    requires Valid(s) && table in s.tables && LinesKnown(lines, s.dishes)
  {
    var id := s.nextOrderId;
    var s1 := Inserted(s, table, now);
    var s2 := BulkCreated(s1, id, lines);
    assert Valid(s2) by {
      InsertedValid(s, table, now);
      BulkCreatedValid(s1, id, lines);
    }
    Recompute(s2, NewOrder(id, table, now))
  }

  /** The items built for the new order add up to the lines' total, and belong to no other order. */
  lemma CreatedItemsTotal(s: Db, table: TableId, lines: seq<ItemLine>, now: Instant)
    requires Valid(s) && table in s.tables && LinesKnown(lines, s.dishes)
    ensures var made := MakeItems(s.nextOrderId, lines, s.nextItemId);
      && DishesKnown(s.items + made, s.dishes)
      && OrderTotal(s.items + made, s.dishes, s.nextOrderId) == LinesTotal(lines, s.dishes)
  {
    var id := s.nextOrderId;
    var made := MakeItems(id, lines, s.nextItemId);
    InsertedValid(s, table, now);
    MakeItemsTotal(id, lines, s.nextItemId, s.dishes);
    MakeItemsMatchLines(id, lines, s.nextItemId);
    OrderTotalAppend(s.items, made, s.dishes, id);
  }

  /**
   * create succeeds exactly when the lines' total fits the total_price
   * column; it then appends exactly one order, bound to the given table,
   * pending, created now and holding the lines' total, and appends the new
   * items after the existing ones, which stay as they were.
   */
  lemma CreateOrderRows(s: Db, table: TableId, lines: seq<ItemLine>, now: Instant)
    requires Valid(s) && table in s.tables && LinesKnown(lines, s.dishes)
    ensures s.nextOrderId !in OrderIds(s.orders)
    ensures CreatedOrder(s, table, lines, now) == Order(s.nextOrderId, table, Pending, LinesTotal(lines, s.dishes), now)
    ensures var r := CreateOrder(s, table, lines, now);
      && (r.Ok? <==> FitsTotalColumn(LinesTotal(lines, s.dishes)))
      && (r.Ok? ==>
            && r.value.orders == s.orders + [CreatedOrder(s, table, lines, now)]
            && r.value.items == s.items + MakeItems(s.nextOrderId, lines, s.nextItemId)
            && r.value.dishes == s.dishes && r.value.tables == s.tables)
  {
    InsertedValid(s, table, now);
    CreatedItemsTotal(s, table, lines, now);
    var added := NewOrder(s.nextOrderId, table, now);
    SaveRowFreshLast(s.orders, added, CreatedOrder(s, table, lines, now));
  }

  /**
   * After a successful create the order count is one higher, the new order
   * holds one item per input line with that line's dish and quantity, every
   * existing order keeps its items, and every order's total is the sum over
   * its items.
   */
  lemma CreateOrderKeepsConsistency(s: Db, table: TableId, lines: seq<ItemLine>, now: Instant)
    requires Consistent(s) && table in s.tables && LinesKnown(lines, s.dishes)
    requires CreateOrder(s, table, lines, now).Ok?
    ensures var t := CreateOrder(s, table, lines, now).value;
      && Consistent(t)
      && |t.orders| == |s.orders| + 1
      && ItemsOf(t.items, s.nextOrderId) == MakeItems(s.nextOrderId, lines, s.nextItemId)
      && (forall other :: other in OrderIds(s.orders) ==> ItemsOf(t.items, other) == ItemsOf(s.items, other))
  {
    var id := s.nextOrderId;
    var s1 := Inserted(s, table, now);
    var s2 := BulkCreated(s1, id, lines);
    var made := MakeItems(id, lines, s.nextItemId);
    CreateOrderRows(s, table, lines, now);
    InsertedConsistent(s, table, now);
    InsertedValid(s, table, now);
    BulkCreatedConsistentOutside(s1, id, lines);
    assert CreateOrder(s, table, lines, now) == Recompute(s2, NewOrder(id, table, now));
    RecomputeRestoresConsistency(s2, NewOrder(id, table, now), {id});
    AppendedItemsOf(s.items, made, id);
  }

  /** Appending the items of a new order: it holds exactly those, and every other order keeps its own. */
  lemma AppendedItemsOf(items: seq<OrderItem>, made: seq<OrderItem>, id: OrderId)
    requires ItemsOf(items, id) == [] && forall k :: 0 <= k < |made| ==> made[k].order == id
    ensures ItemsOf(items + made, id) == made
    ensures forall other :: other != id ==> ItemsOf(items + made, other) == ItemsOf(items, other)
  {
    ItemsOfAllOwn(made, id);
    ItemsOfAppend(items, made, id);
    assert [] + made == made;
    forall other | other != id ensures ItemsOf(items + made, other) == ItemsOf(items, other) {
      ItemsOfAbsent(made, other);
      ItemsOfAppend(items, made, other);
      assert ItemsOf(items, other) + [] == ItemsOf(items, other);
    }
  }

  /**
   * OrderCreator.create on the database. The serializer has already
   * rejected an empty item list and resolved the table and every dish.
   */
  method Create(db: Database, table: TableId, lines: seq<ItemLine>, now: Instant) returns (r: Result<Order, DbError>)
    requires |lines| > 0
    requires Valid(db.Snapshot()) && table in db.tables && LinesKnown(lines, db.dishes)
    modifies db
    ensures var spec := CreateOrder(old(db.Snapshot()), table, lines, now);
      && (spec.Ok? ==> r == Ok(CreatedOrder(old(db.Snapshot()), table, lines, now)) && db.Snapshot() == spec.value)
      && (spec.Err? ==> r == Err(spec.error) && db.Snapshot() == old(db.Snapshot()))
  {
    var saved := db.Snapshot();
    var order := db.InsertOrder(table, now);
    InsertedValid(saved, table, now);
    BulkCreatedValid(Inserted(saved, table, now), order.id, lines);
    CreatedItemsTotal(saved, table, lines, now);
    db.BulkCreate(order.id, lines);
    r := db.UpdateTotalPrice(order);
    if r.Err? {
      db.Restore(saved);
    }
  }
}
